/** The customer returns API (src/app/api/devoluciones/route.ts): the
    paginated listing of a customer's returns and the fail-fast admission of
    a new return request. */
module DevolucionesRoute {
  import opened Common
  import opened Domain
  import opened QueryBuilder

  // ---------------------------------------------------------------------
  // GET
  // ---------------------------------------------------------------------

  /** The listing query for a customer's returns, built as the route
      reassigns its `query` builder. */
  method BuildListQuery(clienteId: string, page: int, limit: int) returns (query: Query)
    ensures query.table == "devoluciones" && query.orderBy == "fecha_solicitud" && !query.ascending
    ensures query.filters == [Eq("pedido.cliente_id", clienteId)]
    ensures query.range == Some(PageRange(page, limit))
  {
    query := From("devoluciones", "fecha_solicitud", false);
    query := AddFilter(query, Eq("pedido.cliente_id", clienteId));
    var fromIndex := (page - 1) * limit;
    var toIndex := page * limit - 1;
    query := WithRange(query, RowRange(fromIndex, toIndex));
  }

  /** `GET /api/devoluciones`: `issued` is the query sent, if one is. */
  method Get(configured: bool, clienteId: string, pageParam: NumParam, limitParam: NumParam,
             reply: ListReply<Devolucion>) returns (issued: Option<Query>, resp: ListResponse<Devolucion>)
    ensures !configured ==> issued.None? && resp.ListFailed? && resp.status == 500
    ensures configured && clienteId == "" ==> issued.None? && resp == ListFailed(400, "clienteId is required")
    ensures configured && clienteId != "" ==>
      issued.Some? && issued.value.filters == [Eq("pedido.cliente_id", clienteId)] &&
      issued.value.range == Some(PageRange(ParamOr(pageParam, 1), ParamOr(limitParam, 10))) &&
      resp == ListResponseOf(reply)
  {
    if !configured {
      return None, ListFailed(500, "Missing Supabase configuration");
    }
    var page := ParamOr(pageParam, 1);
    var limit := ParamOr(limitParam, 10);
    if clienteId == "" {
      return None, ListFailed(400, "clienteId is required");
    }
    var query := BuildListQuery(clienteId, page, limit);
    issued := Some(query);
    resp := ListResponseOf(reply);
  }

  /** A page of the listing with the default size asks for ten rows, and the
      first page starts at row 0. */
  lemma DefaultPage(pageParam: NumParam)
    ensures PageRange(ParamOr(pageParam, 1), ParamOr(Missing, 10)).to -
            PageRange(ParamOr(pageParam, 1), ParamOr(Missing, 10)).from + 1 == 10
    ensures PageRange(ParamOr(Missing, 1), ParamOr(Missing, 10)) == RowRange(0, 9)
  {
  }

  // ---------------------------------------------------------------------
  // POST
  // ---------------------------------------------------------------------

  /** The JSON body; missing strings are "" and a missing `cantidad` is 0. */
  datatype Body = Body(pedidoId: string, productoId: string, cantidad: int, motivo: string, clienteId: string)

  datatype PostResponse = Created(row: Devolucion) | Rejected(status: int, message: string)

  /** `!pedidoId || !productoId || !cantidad || !clienteId`. */
  predicate MissingFields(b: Body)
  {
    b.pedidoId == "" || b.productoId == "" || b.cantidad == 0 || b.clienteId == ""
  }

  function OwnedBy(pedidoId: string, clienteId: string): Pedido -> bool
  {
    (p: Pedido) => p.id == pedidoId && p.clienteId == clienteId
  }

  /** The ownership lookup: `.eq('id', …).eq('cliente_id', …).single()`. */
  function OwnedOrder(pedidos: seq<Pedido>, pedidoId: string, clienteId: string): (r: Option<Pedido>)
    ensures r.Some? ==> r.value in pedidos && r.value.id == pedidoId && r.value.clienteId == clienteId
  {
    Single(Filter(pedidos, OwnedBy(pedidoId, clienteId)))
  }

  function PendingFor(pedidoId: string, productoId: string): Devolucion -> bool
  {
    (d: Devolucion) => d.pedidoId == pedidoId && d.productoId == productoId && d.estado == PENDIENTE
  }

  /** The duplicate lookup: pending returns for the same order and product,
      through `.single()`, which yields a row only when exactly one matches. */
  function PendingDuplicate(devs: seq<Devolucion>, pedidoId: string, productoId: string): (r: Option<Devolucion>)
    ensures r.Some? ==> r.value in devs && PendingFor(pedidoId, productoId)(r.value)
  {
    Single(Filter(devs, PendingFor(pedidoId, productoId)))
  }

  /** `POST /api/devoluciones` over the tables `pedidos` and `devoluciones`.
      `body` is `None` when the request is not JSON; `now` is the server
      clock, `newId` the id the insert assigns and `insertError` its error. */
  function Admit(configured: bool, body: Option<Body>, pedidos: seq<Pedido>, devs: seq<Devolucion>,
                 now: int, newId: string, insertError: Option<string>): (r: PostResponse)
    ensures !configured || body.None? ==> r.Rejected? && r.status == 500
    ensures configured && body.Some? && MissingFields(body.value) ==>
      r == Rejected(400, "Missing required fields")
    ensures configured && body.Some? && !MissingFields(body.value) &&
            OwnedOrder(pedidos, body.value.pedidoId, body.value.clienteId).None? ==>
      r.Rejected? && r.status == 403
    ensures r.Created? <==>
      configured && body.Some? && !MissingFields(body.value) &&
      OwnedOrder(pedidos, body.value.pedidoId, body.value.clienteId).Some? &&
      WithinReturnWindow(now, OwnedOrder(pedidos, body.value.pedidoId, body.value.clienteId).value.creadoAt) &&
      PendingDuplicate(devs, body.value.pedidoId, body.value.productoId).None? &&
      insertError.None?
    ensures r.Created? ==>
      r.row == NewReturnRow(newId, body.value.pedidoId, body.value.productoId, body.value.cantidad,
                            body.value.motivo,
                            OwnedOrder(pedidos, body.value.pedidoId, body.value.clienteId).value.creadoAt)
  {
    if !configured then Rejected(500, "Missing Supabase configuration")
    else if body.None? then Rejected(500, "Invalid JSON")
    else
      var b := body.value;
      if MissingFields(b) then Rejected(400, "Missing required fields")
      else
        var pedido := OwnedOrder(pedidos, b.pedidoId, b.clienteId);
        if pedido.None? then Rejected(403, "Pedido no encontrado o no pertenece al cliente")
        else if ElapsedDays(now, pedido.value.creadoAt) > RETURN_WINDOW_DAYS then
          Rejected(400, "El plazo de 30 días para solicitar devoluciones ha expirado")
        else if PendingDuplicate(devs, b.pedidoId, b.productoId).Some? then
          Rejected(400, "Ya existe una solicitud de devolución pendiente para este producto")
        else if insertError.Some? then Rejected(500, insertError.value)
        else Created(NewReturnRow(newId, b.pedidoId, b.productoId, b.cantidad, b.motivo, pedido.value.creadoAt))
  }

  /** Past the ownership and window checks, a pending return for the same
      product is refused with 400, and otherwise a failed insert with 500 and
      the database's message. */
  lemma AdmitLateRejections(body: Body, pedidos: seq<Pedido>, devs: seq<Devolucion>,
                            now: int, newId: string, insertError: Option<string>)
    requires !MissingFields(body) && OwnedOrder(pedidos, body.pedidoId, body.clienteId).Some?
    requires WithinReturnWindow(now, OwnedOrder(pedidos, body.pedidoId, body.clienteId).value.creadoAt)
    ensures PendingDuplicate(devs, body.pedidoId, body.productoId).Some? ==>
      Admit(true, Some(body), pedidos, devs, now, newId, insertError) ==
        Rejected(400, "Ya existe una solicitud de devolución pendiente para este producto")
    ensures PendingDuplicate(devs, body.pedidoId, body.productoId).None? && insertError.Some? ==>
      Admit(true, Some(body), pedidos, devs, now, newId, insertError) == Rejected(500, insertError.value)
  {
    // one case per rejection
    if PendingDuplicate(devs, body.pedidoId, body.productoId).Some? {
    } else {
    }
  }

  /** Ownership is decided before the time window: an order the customer does
      not own is refused with 403 whatever the clock says. */
  lemma OwnershipBeforeWindow(body: Body, pedidos: seq<Pedido>, devs: seq<Devolucion>,
                              now1: int, now2: int, newId: string, insertError: Option<string>)
    requires !MissingFields(body) && OwnedOrder(pedidos, body.pedidoId, body.clienteId).None?
    ensures Admit(true, Some(body), pedidos, devs, now1, newId, insertError) ==
            Admit(true, Some(body), pedidos, devs, now2, newId, insertError)
    ensures Admit(true, Some(body), pedidos, devs, now1, newId, insertError).status == 403
  {
  }

  /** The window in milliseconds: a request is refused on window grounds
      exactly when 31 whole days or more have passed since the order. */
  lemma WindowBoundary(body: Body, pedidos: seq<Pedido>, devs: seq<Devolucion>, now: int,
                       newId: string, insertError: Option<string>)
    requires !MissingFields(body) && OwnedOrder(pedidos, body.pedidoId, body.clienteId).Some?
    ensures var creado := OwnedOrder(pedidos, body.pedidoId, body.clienteId).value.creadoAt;
      Admit(true, Some(body), pedidos, devs, now, newId, insertError) ==
        Rejected(400, "El plazo de 30 días para solicitar devoluciones ha expirado")
      <==> now - creado >= (RETURN_WINDOW_DAYS + 1) * MS_PER_DAY
  {
    var creado := OwnedOrder(pedidos, body.pedidoId, body.clienteId).value.creadoAt;
    WindowInMilliseconds(now, creado);
  }

  predicate NoPendingFor(devs: seq<Devolucion>, pedidoId: string, productoId: string)
  {
    forall i :: 0 <= i < |devs| ==> !PendingFor(pedidoId, productoId)(devs[i])
  }

  /** Returns in other states never block a new request. */
  lemma {:induction false} OtherStatesDoNotBlock(devs: seq<Devolucion>, pedidoId: string, productoId: string)
    requires NoPendingFor(devs, pedidoId, productoId)
    ensures PendingDuplicate(devs, pedidoId, productoId).None?
  {
    FilterDropsAll(devs, PendingFor(pedidoId, productoId));
  }

  /** A single pending return for the same order and product blocks. */
  lemma PendingBlocks(devs: seq<Devolucion>, k: int)
    requires 0 <= k < |devs| && devs[k].estado == PENDIENTE
    requires forall i :: 0 <= i < |devs| && i != k ==> !PendingFor(devs[k].pedidoId, devs[k].productoId)(devs[i])
    ensures PendingDuplicate(devs, devs[k].pedidoId, devs[k].productoId) == Some(devs[k])
  {
    var keep := PendingFor(devs[k].pedidoId, devs[k].productoId);
    assert devs == devs[..k] + [devs[k]] + devs[k + 1..];
    FilterConcat(devs[..k] + [devs[k]], devs[k + 1..], keep);
    FilterConcat(devs[..k], [devs[k]], keep);
    FilterDropsAll(devs[..k], keep);
    FilterDropsAll(devs[k + 1..], keep);
  }

  /** At most one pending return exists per order and product. */
  predicate AtMostOnePending(devs: seq<Devolucion>)
  {
    forall i, j :: 0 <= i < j < |devs| && devs[i].estado == PENDIENTE && devs[j].estado == PENDIENTE ==>
      devs[i].pedidoId != devs[j].pedidoId || devs[i].productoId != devs[j].productoId
  }

  /** Admission keeps the invariant: it inserts a pending row only when no
      pending row exists for the pair. */
  lemma AdmitKeepsAtMostOnePending(body: Body, pedidos: seq<Pedido>, devs: seq<Devolucion>,
                                   now: int, newId: string, insertError: Option<string>)
    requires AtMostOnePending(devs)
    ensures var r := Admit(true, Some(body), pedidos, devs, now, newId, insertError);
      r.Created? ==> AtMostOnePending(devs + [r.row])
  {
    var r := Admit(true, Some(body), pedidos, devs, now, newId, insertError);
    if r.Created? {
      var keep := PendingFor(body.pedidoId, body.productoId);
      var all := devs + [r.row];
      forall i, j | 0 <= i < j < |all| && all[i].estado == PENDIENTE && all[j].estado == PENDIENTE
        ensures all[i].pedidoId != all[j].pedidoId || all[i].productoId != all[j].productoId
      {
        if j == |devs| && all[i].pedidoId == all[j].pedidoId && all[i].productoId == all[j].productoId {
          assert keep(devs[i]);
          OnlyOneMatch(devs, keep, i);
          assert false;
        }
      }
    }
  }

  /** Under the invariant, every matching row is the only one, so the
      duplicate lookup finds it. */
  lemma OnlyOneMatch(devs: seq<Devolucion>, keep: Devolucion -> bool, k: int)
    requires AtMostOnePending(devs) && 0 <= k < |devs| && keep(devs[k])
    requires keep == PendingFor(devs[k].pedidoId, devs[k].productoId)
    ensures |Filter(devs, keep)| == 1
  {
    PendingBlocks(devs, k);
  }

  /** The tables behind the route. */
  class Store {
    var pedidos: seq<Pedido>
    var devoluciones: seq<Devolucion>

    constructor (pedidos: seq<Pedido>, devoluciones: seq<Devolucion>)
      ensures this.pedidos == pedidos && this.devoluciones == devoluciones
    {
      this.pedidos := pedidos;
      this.devoluciones := devoluciones;
    }

    /** Runs the admission and inserts the row it creates. */
    method Post(configured: bool, body: Option<Body>, now: int, newId: string, insertError: Option<string>)
      returns (resp: PostResponse)
      modifies this
      ensures resp == Admit(configured, body, old(pedidos), old(devoluciones), now, newId, insertError)
      ensures pedidos == old(pedidos)
      ensures devoluciones == if resp.Created? then old(devoluciones) + [resp.row] else old(devoluciones)
    {
      resp := Admit(configured, body, pedidos, devoluciones, now, newId, insertError);
      if resp.Created? {
        devoluciones := devoluciones + [resp.row];
      }
    }
  }
}
