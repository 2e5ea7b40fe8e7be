/** The part of the database client's query builder the API routes use, as
    a value: the table, the ordering, the filters added one call at a time
    and the requested row range; plus the JSON body every list route builds
    from the reply. What the backend does with a query (ILIKE matching, `or`
    groups, joins) is not modelled. */
module QueryBuilder {
  import opened Common
  import opened Text

  datatype Condition =
    | Eq(column: string, value: string)   // .eq(column, value)
    | Gte(column: string, bound: int)     // .gte(column, bound)
    | Lte(column: string, bound: int)     // .lte(column, bound)
    | Or(parts: seq<string>)              // .or(parts.join(','))

  datatype Query = Query(table: string, orderBy: string, ascending: bool,
                         filters: seq<Condition>, range: Option<RowRange>)

  /** `supabase.from(table).select(…).order(column, { ascending })`. */
  function From(table: string, orderBy: string, ascending: bool): (q: Query)
    ensures q.filters == [] && q.range.None?
  {
    Query(table, orderBy, ascending, [], None)
  }

  function AddFilter(q: Query, f: Condition): (r: Query)
    ensures r.filters == q.filters + [f]
    ensures r.(filters := q.filters) == q
  {
    q.(filters := q.filters + [f])
  }

  function WithRange(q: Query, range: RowRange): (r: Query)
    ensures r.range == Some(range)
    ensures r.(range := q.range) == q
  {
    q.(range := Some(range))
  }

  /** `` `${column}.ilike.%${escaped}%` ``. */
  function IlikePart(column: string, escaped: string): string
  {
    column + ".ilike.%" + escaped + "%"
  }

  /** One ILIKE part per column, all with the same escaped text. */
  function IlikeParts(columns: seq<string>, q: string): (parts: seq<string>)
    ensures |parts| == |columns|
    ensures forall i :: 0 <= i < |columns| ==> parts[i] == IlikePart(columns[i], EscapeLike(q))
  {
    seq(|columns|, i requires 0 <= i < |columns| => IlikePart(columns[i], EscapeLike(q)))
  }

  /** Whether a timestamp passes every `gte`/`lte` filter on `column`. */
  predicate PassesBounds(filters: seq<Condition>, column: string, t: int)
  {
    forall i :: 0 <= i < |filters| ==>
      (filters[i].Gte? && filters[i].column == column ==> filters[i].bound <= t) &&
      (filters[i].Lte? && filters[i].column == column ==> t <= filters[i].bound)
  }

  predicate HasFilter(filters: seq<Condition>, f: Condition)
  {
    exists i :: 0 <= i < |filters| && filters[i] == f
  }

  /** The columns some filter of the list looks at. */
  predicate MentionsColumn(filters: seq<Condition>, column: string)
  {
    exists i :: 0 <= i < |filters| && !filters[i].Or? && filters[i].column == column
  }

  predicate HasOr(filters: seq<Condition>)
  {
    exists i :: 0 <= i < |filters| && filters[i].Or?
  }

  // ---------------------------------------------------------------------
  // The list response
  // ---------------------------------------------------------------------

  /** What `await builder` yields: `{ data, error, count }`. */
  datatype ListReply<T> = ListReply(data: Option<seq<T>>, count: Option<int>, error: Option<string>)

  datatype ListResponse<T> = ListOk(data: seq<T>, count: int) | ListFailed(status: int, message: string)

  /** `{ data: data || [], count: count ?? (data || []).length }`, or 500
      with the error's message. */
  function ListResponseOf<T>(reply: ListReply<T>): (r: ListResponse<T>)
    ensures reply.error.Some? ==> r == ListFailed(500, reply.error.value)
    ensures reply.error.None? ==> r.ListOk?
    ensures r.ListOk? && reply.data.Some? ==> r.data == reply.data.value
    ensures r.ListOk? && reply.data.None? ==> r.data == []
    ensures r.ListOk? && reply.count.Some? ==> r.count == reply.count.value
    ensures r.ListOk? && reply.count.None? ==> r.count == |r.data|
  {
    if reply.error.Some? then ListFailed(500, reply.error.value)
    else
      var data := if reply.data.Some? then reply.data.value else [];
      ListOk(data, if reply.count.Some? then reply.count.value else |data|)
  }

  // ---------------------------------------------------------------------
  // The list pages' side of a list request
  // ---------------------------------------------------------------------

  /** What `fetch(…)` of a list route yields to a page: a non-ok status with
      the body's `error` ("" when it has none), the JSON payload, or a throw. */
  datatype FetchReply<T> =
    | HttpError(status: int, payloadError: string)
    | Payload(data: Option<seq<T>>, count: Option<int>)
    | FetchThrew(message: string)

  /** `payload?.error || `HTTP ${res.status}``. */
  function FetchErrorMessage(status: int, payloadError: string): (msg: string)
    ensures msg != ""
    ensures payloadError != "" ==> msg == payloadError
    ensures payloadError == "" ==> msg == "HTTP " + IntToString(status)
  {
    if payloadError != "" then payloadError else "HTTP " + IntToString(status)
  }

  /** What a page receives from a list route's response. */
  function Received<T>(resp: ListResponse<T>): (reply: FetchReply<T>)
    ensures resp.ListOk? ==> reply == Payload(Some(resp.data), Some(resp.count))
    ensures resp.ListFailed? ==> reply == HttpError(resp.status, resp.message)
  {
    match resp
    case ListOk(data, count) => Payload(Some(data), Some(count))
    case ListFailed(status, message) => HttpError(status, message)
  }
}
