/** The customer's order list (src/app/perfil/mis-pedidos/page.tsx): which
    orders still offer a return request. */
module MisPedidos {
  import opened Common
  import opened Domain
  import DevolucionesRoute

  /** `puedeSolicitarDevolucion(creado_at)` at client time `now`. */
  predicate PuedeSolicitarDevolucion(creadoAt: int, now: int): (r: bool)
    ensures r <==> WithinReturnWindow(now, creadoAt)
  {
    ElapsedDays(now, creadoAt) <= RETURN_WINDOW_DAYS
  }

  /** The page's test in milliseconds: eligible exactly while less than 31
      whole days have passed. */
  lemma EligibleIff(creadoAt: int, now: int)
    ensures PuedeSolicitarDevolucion(creadoAt, now) <==> now - creadoAt < (RETURN_WINDOW_DAYS + 1) * MS_PER_DAY
  {
    WindowInMilliseconds(now, creadoAt);
  }

  /** The bound is inclusive: 30 whole days and any fraction of the 31st day
      are still eligible. */
  lemma ThirtyDaysStillEligible(creadoAt: int, extra: int)
    requires 0 <= extra < MS_PER_DAY
    ensures PuedeSolicitarDevolucion(creadoAt, creadoAt + RETURN_WINDOW_DAYS * MS_PER_DAY + extra)
    ensures !PuedeSolicitarDevolucion(creadoAt, creadoAt + (RETURN_WINDOW_DAYS + 1) * MS_PER_DAY)
  {
    EligibleIff(creadoAt, creadoAt + RETURN_WINDOW_DAYS * MS_PER_DAY + extra);
    EligibleIff(creadoAt, creadoAt + (RETURN_WINDOW_DAYS + 1) * MS_PER_DAY);
  }

  /** An order dated in the future of the client clock is eligible. */
  lemma NegativeElapsedEligible(creadoAt: int, now: int)
    requires now < creadoAt
    ensures PuedeSolicitarDevolucion(creadoAt, now)
  {
    EligibleIff(creadoAt, now);
  }

  /** Once an order is no longer eligible it stays so. */
  lemma EligibilityOnlyExpires(creadoAt: int, now1: int, now2: int)
    requires now1 <= now2 && !PuedeSolicitarDevolucion(creadoAt, now1)
    ensures !PuedeSolicitarDevolucion(creadoAt, now2)
  {
    EligibleIff(creadoAt, now1);
    EligibleIff(creadoAt, now2);
  }

  /** With the same clock the page and the server apply the same window: a
      request for an order the page offers it on, which passes the other
      checks, is admitted. */
  lemma AgreesWithServer(body: DevolucionesRoute.Body, pedidos: seq<Pedido>, devs: seq<Devolucion>,
                         now: int, newId: string)
    requires !DevolucionesRoute.MissingFields(body)
    requires DevolucionesRoute.OwnedOrder(pedidos, body.pedidoId, body.clienteId).Some?
    requires DevolucionesRoute.PendingDuplicate(devs, body.pedidoId, body.productoId).None?
    requires PuedeSolicitarDevolucion(DevolucionesRoute.OwnedOrder(pedidos, body.pedidoId, body.clienteId).value.creadoAt, now)
    ensures DevolucionesRoute.Admit(true, Some(body), pedidos, devs, now, newId, None).Created?
  {
  }

  /** What the order card shows below its line items. */
  datatype ReturnControl = RequestLink(href: string) | ExpiredNotice

  /** The two conditional blocks of the card, in order. */
  function ControlsShown(pedido: Pedido, now: int): (cs: seq<ReturnControl>)
    ensures |cs| == 1
    ensures cs[0].RequestLink? <==> PuedeSolicitarDevolucion(pedido.creadoAt, now)
    ensures cs[0].RequestLink? ==> cs[0].href == "/perfil/solicitar-devolucion?pedidoId=" + pedido.id
  {
    (if PuedeSolicitarDevolucion(pedido.creadoAt, now)
     then [RequestLink("/perfil/solicitar-devolucion?pedidoId=" + pedido.id)] else []) +
    (if !PuedeSolicitarDevolucion(pedido.creadoAt, now) then [ExpiredNotice] else [])
  }
}
