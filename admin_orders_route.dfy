/** The admin orders API (src/app/api/admin/pedidos/route.ts): newest orders
    first, with a free-text search, an optional date window and pagination. */
module AdminPedidosRoute {
  import opened Common
  import opened Text
  import opened Domain
  import opened QueryBuilder

  /** The columns the free-text search looks in. */
  const SEARCH_COLUMNS: seq<string> := ["id", "perfiles.nombre", "perfiles.telefono", "productos->>nombre"]

  /** The listing query. `from` and `to` are the date bounds as timestamps,
      `None` when the parameter is absent or empty. */
  method BuildListQuery(q: string, from: Option<int>, to: Option<int>, page: int, limit: int) returns (query: Query)
    ensures query.table == "pedidos" && query.orderBy == "creado_at" && !query.ascending
    ensures query.filters ==
      (if q != "" then [Or(IlikeParts(SEARCH_COLUMNS, q))] else []) + DateFilters(from, to)
    ensures HasOr(query.filters) <==> q != ""
    ensures query.range == Some(PageRange(page, limit))
  {
    query := From("pedidos", "creado_at", false);
    if q != "" {
      var escaped := EscapeLike(q);
      var parts := [IlikePart("id", escaped), IlikePart("perfiles.nombre", escaped),
                    IlikePart("perfiles.telefono", escaped), IlikePart("productos->>nombre", escaped)];
      assert parts == IlikeParts(SEARCH_COLUMNS, q);
      query := AddFilter(query, Or(parts));
    }
    if from.Some? {
      query := AddFilter(query, Gte("creado_at", from.value));
    }
    if to.Some? {
      query := AddFilter(query, Lte("creado_at", to.value));
    }
    var fromIndex := (page - 1) * limit;
    var toIndex := page * limit - 1;
    query := WithRange(query, RowRange(fromIndex, toIndex));
    if q != "" {
      assert query.filters[0].Or?;
    } else {
      assert forall i :: 0 <= i < |query.filters| ==> !query.filters[i].Or?;
    }
  }

  /** The date filters the route adds, in the order it adds them. */
  function DateFilters(from: Option<int>, to: Option<int>): (r: seq<Condition>)
    ensures forall c :: c in r <==>
      (from.Some? && c == Gte("creado_at", from.value)) || (to.Some? && c == Lte("creado_at", to.value))
  {
    (if from.Some? then [Gte("creado_at", from.value)] else []) +
    (if to.Some? then [Lte("creado_at", to.value)] else [])
  }

  /** The date window is inclusive at both ends, and an absent bound does
      not restrict: an order passes the filters exactly when it was placed
      between the bounds that are given. */
  lemma DateWindowInclusive(q: string, from: Option<int>, to: Option<int>, t: int)
    ensures var filters := (if q != "" then [Or(IlikeParts(SEARCH_COLUMNS, q))] else []) + DateFilters(from, to);
      PassesBounds(filters, "creado_at", t) <==>
      (from.None? || from.value <= t) && (to.None? || t <= to.value)
  {
    var filters := (if q != "" then [Or(IlikeParts(SEARCH_COLUMNS, q))] else []) + DateFilters(from, to);
    var k := if q != "" then 1 else 0;
    if from.Some? {
      assert filters[k] == Gte("creado_at", from.value);
    }
    if to.Some? {
      assert filters[|filters| - 1] == Lte("creado_at", to.value);
    }
  }

  /** The timestamp a date-only bound such as `2024-05-10` stands for when
      compared with `creado_at`: midnight at the start of that day, with
      `day` counted from the epoch. */
  function DayStart(day: int): (r: int)
    ensures ElapsedDays(r, 0) == day && ElapsedDays(r - 1, 0) == day - 1
  {
    day * MS_PER_DAY
  }

  /** The orders pages send `to` as a date without a time, so the upper
      bound is that day's midnight: an order placed later on the same day
      fails the filter, while one placed at midnight passes. */
  lemma DateOnlyToExcludesRestOfDay(q: string, from: Option<int>, day: int, t: int)
    requires DayStart(day) < t < DayStart(day + 1)
    ensures var filters := (if q != "" then [Or(IlikeParts(SEARCH_COLUMNS, q))] else []) +
                           DateFilters(from, Some(DayStart(day)));
      !PassesBounds(filters, "creado_at", t)
    ensures var filters := (if q != "" then [Or(IlikeParts(SEARCH_COLUMNS, q))] else []) +
                           DateFilters(None, Some(DayStart(day)));
      PassesBounds(filters, "creado_at", DayStart(day))
  {
    DateWindowInclusive(q, from, Some(DayStart(day)), t);
    DateWindowInclusive(q, None, Some(DayStart(day)), DayStart(day));
  }

  /** `GET /api/admin/pedidos`; `q` is "" when absent. */
  method Get(configured: bool, q: string, from: Option<int>, to: Option<int>,
             pageParam: NumParam, limitParam: NumParam, reply: ListReply<Pedido>)
    returns (issued: Option<Query>, resp: ListResponse<Pedido>)
    ensures !configured ==> issued.None? && resp == ListFailed(500, "Missing Supabase configuration")
    ensures configured ==>
      issued.Some? && issued.value.range == Some(PageRange(ParamOr(pageParam, 1), ParamOr(limitParam, 10))) &&
      (HasOr(issued.value.filters) <==> q != "") &&
      (forall t :: PassesBounds(issued.value.filters, "creado_at", t) <==>
        (from.None? || from.value <= t) && (to.None? || t <= to.value)) &&
      resp == ListResponseOf(reply)
  {
    if !configured {
      return None, ListFailed(500, "Missing Supabase configuration");
    }
    var page := ParamOr(pageParam, 1);
    var limit := ParamOr(limitParam, 10);
    var query := BuildListQuery(q, from, to, page, limit);
    forall t ensures PassesBounds(query.filters, "creado_at", t) <==>
        (from.None? || from.value <= t) && (to.None? || t <= to.value) {
      DateWindowInclusive(q, from, to, t);
    }
    issued := Some(query);
    resp := ListResponseOf(reply);
  }
}
