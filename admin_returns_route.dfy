/** The admin returns API (src/app/api/admin/devoluciones/route.ts): the
    filtered, paginated listing and the status update. */
module AdminDevolucionesRoute {
  import opened Common
  import opened Text
  import opened Domain
  import opened QueryBuilder

  // ---------------------------------------------------------------------
  // GET
  // ---------------------------------------------------------------------

  /** The columns the free-text search looks in. */
  const SEARCH_COLUMNS: seq<string> := ["id", "producto.nombre", "pedido.cliente.nombre"]

  /** The listing query: newest request first, an `or` of ILIKE parts when
      there is a search text, an `estado` filter when one is chosen, and the
      page's row range. */
  method BuildListQuery(q: string, estado: string, page: int, limit: int) returns (query: Query)
    ensures query.table == "devoluciones" && query.orderBy == "fecha_solicitud" && !query.ascending
    ensures query.filters ==
      (if q != "" then [Or(IlikeParts(SEARCH_COLUMNS, q))] else []) +
      (if estado != "" then [Eq("estado", estado)] else [])
    ensures HasOr(query.filters) <==> q != ""
    ensures HasFilter(query.filters, Eq("estado", estado)) <==> estado != ""
    ensures MentionsColumn(query.filters, "estado") <==> estado != ""
    ensures query.range == Some(PageRange(page, limit))
  {
    query := From("devoluciones", "fecha_solicitud", false);
    if q != "" {
      var escaped := EscapeLike(q);
      var parts := [IlikePart("id", escaped), IlikePart("producto.nombre", escaped),
                    IlikePart("pedido.cliente.nombre", escaped)];
      assert parts == IlikeParts(SEARCH_COLUMNS, q);
      query := AddFilter(query, Or(parts));
    }
    if estado != "" {
      query := AddFilter(query, Eq("estado", estado));
    }
    var fromIndex := (page - 1) * limit;
    var toIndex := page * limit - 1;
    query := WithRange(query, RowRange(fromIndex, toIndex));
    assert estado != "" ==> query.filters[|query.filters| - 1] == Eq("estado", estado);
  }

  /** `GET /api/admin/devoluciones`; `q` and `estado` are "" when absent. */
  method Get(configured: bool, q: string, estado: string, pageParam: NumParam, limitParam: NumParam,
             reply: ListReply<Devolucion>) returns (issued: Option<Query>, resp: ListResponse<Devolucion>)
    ensures !configured ==> issued.None? && resp == ListFailed(500, "Missing Supabase configuration")
    ensures configured ==>
      issued.Some? && issued.value.range == Some(PageRange(ParamOr(pageParam, 1), ParamOr(limitParam, 10))) &&
      (HasOr(issued.value.filters) <==> q != "") &&
      (MentionsColumn(issued.value.filters, "estado") <==> estado != "") &&
      resp == ListResponseOf(reply)
  {
    if !configured {
      return None, ListFailed(500, "Missing Supabase configuration");
    }
    var page := ParamOr(pageParam, 1);
    var limit := ParamOr(limitParam, 10);
    var query := BuildListQuery(q, estado, page, limit);
    issued := Some(query);
    resp := ListResponseOf(reply);
  }

  /** Every ILIKE part of the search carries the query with its wildcards
      escaped, so a `%` or `_` typed by the admin matches only itself. */
  lemma SearchPartsEscaped(q: string)
    ensures forall i :: 0 <= i < |SEARCH_COLUMNS| ==>
      IlikeParts(SEARCH_COLUMNS, q)[i] == SEARCH_COLUMNS[i] + ".ilike.%" + EscapeLike(q) + "%"
    ensures NoBareWildcard(EscapeLike(q))
  {
    EscapeLikeGuardsWildcards(q);
  }

  // ---------------------------------------------------------------------
  // PATCH
  // ---------------------------------------------------------------------

  /** `observaciones_admin` in the body: absent, `null`, or a string. */
  datatype ObsField = Undefined | Null | Given(text: string)

  /** The body; a missing `id` or `estado` is "". */
  datatype PatchBody = PatchBody(id: string, estado: string, observaciones: ObsField)

  datatype PatchResponse = PatchOk(row: Devolucion) | PatchFailed(status: int, message: string)

  /** `updateData`: the status, and the observation whenever the key is
      present, `null` included. */
  function PayloadFor(b: PatchBody): (u: ReturnUpdate)
    ensures u.estado == b.estado
    ensures u.obs.Keep? <==> b.observaciones.Undefined?
    ensures b.observaciones.Null? ==> u.obs == SetTo(None)
    ensures b.observaciones.Given? ==> u.obs == SetTo(Some(b.observaciones.text))
  {
    ReturnUpdate(b.estado,
                 match b.observaciones
                 case Undefined => Keep
                 case Null => SetTo(None)
                 case Given(s) => SetTo(Some(s)))
  }

  function HasIdOf(id: string): Devolucion -> bool
  {
    (d: Devolucion) => d.id == id
  }

  /** The `devoluciones` table behind the route. */
  class ReturnsTable {
    var rows: seq<Devolucion>

    constructor (rows: seq<Devolucion>)
      ensures this.rows == rows
    {
      this.rows := rows;
    }

    /** `PATCH /api/admin/devoluciones`: `body` is `None` when the request
        is not JSON (the parse error is caught, 500); `dbError` is an error
        the update reports. `.update(…).eq('id', id).select().single()`
        succeeds when exactly one row has the id; otherwise the table is left
        as it was. There is no check of the current status. */
    method Patch(configured: bool, body: Option<PatchBody>, dbError: Option<string>) returns (resp: PatchResponse)
      modifies this
      ensures !configured || body.None? ==> resp.PatchFailed? && resp.status == 500 && rows == old(rows)
      ensures configured && body.Some? && (body.value.id == "" || body.value.estado == "") ==>
        resp == PatchFailed(400, "Missing required fields") && rows == old(rows)
      ensures resp.PatchOk? <==>
        configured && body.Some? && body.value.id != "" && body.value.estado != "" &&
        dbError.None? && |Filter(old(rows), HasIdOf(body.value.id))| == 1
      ensures resp.PatchOk? ==>
        rows == UpdateWhereId(old(rows), body.value.id, PayloadFor(body.value)) &&
        resp.row == ApplyUpdate(Filter(old(rows), HasIdOf(body.value.id))[0], PayloadFor(body.value))
      ensures resp.PatchFailed? ==> rows == old(rows)
    {
      if !configured {
        return PatchFailed(500, "Missing Supabase configuration");
      }
      if body.None? {
        return PatchFailed(500, "Invalid JSON");
      }
      var b := body.value;
      if b.id == "" || b.estado == "" {
        return PatchFailed(400, "Missing required fields");
      }
      var updateData := ReturnUpdate(b.estado, Keep);
      if !b.observaciones.Undefined? {
        updateData := updateData.(obs := if b.observaciones.Null? then SetTo(None)
                                         else SetTo(Some(b.observaciones.text)));
      }
      if dbError.Some? {
        return PatchFailed(500, dbError.value);
      }
      var matches := Filter(rows, HasIdOf(b.id));
      if |matches| != 1 {
        return PatchFailed(500, "JSON object requested, multiple (or no) rows returned");
      }
      rows := UpdateWhereId(rows, b.id, updateData);
      resp := PatchOk(ApplyUpdate(matches[0], updateData));
    }
  }

  /** The update is applied to the one matching row and nowhere else. */
  lemma PatchTouchesOnlyItsRow(rows: seq<Devolucion>, b: PatchBody, i: int)
    requires 0 <= i < |rows|
    ensures rows[i].id != b.id ==> UpdateWhereId(rows, b.id, PayloadFor(b))[i] == rows[i]
    ensures rows[i].id == b.id ==>
      UpdateWhereId(rows, b.id, PayloadFor(b))[i].estado == b.estado &&
      (b.observaciones.Undefined? ==> UpdateWhereId(rows, b.id, PayloadFor(b))[i].observaciones == rows[i].observaciones)
  {
  }

  /** Nothing restricts the transition: a completed return can be sent back
      to pending, which the admin screen never offers. */
  lemma UngatedPatch(d: Devolucion)
    requires d.estado == COMPLETADA && d.id != ""
    ensures UpdateWhereId([d], d.id, PayloadFor(PatchBody(d.id, PENDIENTE, Undefined)))[0].estado == PENDIENTE
  {
  }
}
