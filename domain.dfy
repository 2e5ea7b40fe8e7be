/** The records the storefront keeps in its remote tables, as values: cart
    line items, orders (`pedidos`) and return requests (`devoluciones`), with
    the status strings the code compares against. */
module Domain {
  import opened Common

  const PENDIENTE: string := "Pendiente"
  const APROBADA: string := "Aprobada"
  const RECHAZADA: string := "Rechazada"
  const COMPLETADA: string := "Completada"
  const ENVIADO: string := "Enviado"

  /** The reason stored when a return request gives none. */
  const MOTIVO_POR_DEFECTO: string := "No especificado"

  /** A cart line: the product's fields plus `cantidad`. Prices are integers
      (cents); a `cantidad` of 0 stands for a missing or zero quantity, both
      falsy in the source. */
  datatype CartItem = CartItem(id: string, nombre: string, precio: int, cantidad: int)

  /** A row of `pedidos`; `creadoAt` is in milliseconds. */
  datatype Pedido = Pedido(
    id: string,
    clienteId: string,
    creadoAt: int,
    total: int,
    articulos: seq<CartItem>,
    direccionEntrega: string,
    estado: string)

  /** A row of `devoluciones`; `fechaLimite` is in milliseconds. */
  datatype Devolucion = Devolucion(
    id: string,
    pedidoId: string,
    productoId: string,
    cantidad: int,
    motivo: string,
    estado: string,
    fechaLimite: int,
    observaciones: Option<string>)

  /** The row both the returns API and the request page insert: a pending
      request whose deadline is 30 days after the order was placed. */
  function NewReturnRow(id: string, pedidoId: string, productoId: string, cantidad: int,
                        motivo: string, creadoAt: int): (r: Devolucion)
    ensures r.estado == PENDIENTE && r.observaciones == None
    ensures r.pedidoId == pedidoId && r.productoId == productoId && r.cantidad == cantidad
    ensures r.fechaLimite - creadoAt == RETURN_WINDOW_DAYS * MS_PER_DAY
    ensures motivo != "" ==> r.motivo == motivo
    ensures motivo == "" ==> r.motivo == MOTIVO_POR_DEFECTO
  {
    Devolucion(id, pedidoId, productoId, cantidad, OrDefault(motivo, MOTIVO_POR_DEFECTO),
               PENDIENTE, PlusDays(creadoAt, RETURN_WINDOW_DAYS), None)
  }

  /** What an update payload does to `observaciones_admin`: leave it (the key
      is absent) or set it, possibly to null. */
  datatype ObsUpdate = Keep | SetTo(value: Option<string>)

  /** An `update` payload for a return: the new status and the observation. */
  datatype ReturnUpdate = ReturnUpdate(estado: string, obs: ObsUpdate)

  /** What the table does with an update payload: the status is replaced, the
      observation only when the payload carries the key. */
  function ApplyUpdate(d: Devolucion, u: ReturnUpdate): (r: Devolucion)
    ensures r.estado == u.estado
    ensures u.obs.Keep? ==> r.observaciones == d.observaciones
    ensures u.obs.SetTo? ==> r.observaciones == u.obs.value
    ensures r.(estado := d.estado, observaciones := d.observaciones) == d
  {
    d.(estado := u.estado,
       observaciones := if u.obs.SetTo? then u.obs.value else d.observaciones)
  }

  /** `.update(u).eq('id', id)` on a table of returns. */
  function UpdateWhereId(table: seq<Devolucion>, id: string, u: ReturnUpdate): (r: seq<Devolucion>)
    ensures |r| == |table|
    ensures forall i :: 0 <= i < |table| ==>
      r[i] == if table[i].id == id then ApplyUpdate(table[i], u) else table[i]
  {
    seq(|table|, i requires 0 <= i < |table| =>
      if table[i].id == id then ApplyUpdate(table[i], u) else table[i])
  }
}
