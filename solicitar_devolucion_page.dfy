/** The return request form (src/app/perfil/solicitar-devolucion/page.tsx):
    loading the order with the window check, the quantity input, and the
    row `handleSubmit` inserts directly into `devoluciones`. */
module SolicitarDevolucion {
  import opened Common
  import opened Domain
  import opened CartContext
  import MisPedidos
  import DevolucionesRoute

  /** The order lookup's reply: an error message, no row, or the row. */
  datatype PedidoReply = LoadError(message: string) | NotFound | Found(pedido: Pedido)

  const EXPIRED_MESSAGE: string := "El plazo de 30 días para solicitar devoluciones ha expirado"
  const INVALID_PRODUCT: string := "Producto no válido"

  /** `parseInt(e.target.value) || 1`. */
  function ParseCantidad(input: NumParam): (c: int)
    ensures c != 0
    ensures !input.Number? ==> c == 1
    ensures input.Number? && input.value != 0 ==> c == input.value
  {
    ParamOr(input, 1)
  }

  /** `max={productosDisponibles[idx]?.cantidad || 1}`. */
  function MaxCantidad(articulos: seq<CartItem>, idx: int): (m: int)
    ensures 0 <= idx < |articulos| && articulos[idx].cantidad != 0 ==> m == articulos[idx].cantidad
    ensures 0 <= idx < |articulos| && articulos[idx].cantidad == 0 ==> m == 1
    ensures !(0 <= idx < |articulos|) ==> m == 1
  {
    if 0 <= idx < |articulos| then Qty(articulos[idx].cantidad) else 1
  }

  /** The bounds the number input declares (`min="1"`, `max=…`). */
  predicate CantidadInRange(c: int, articulos: seq<CartItem>, idx: int)
  {
    1 <= c <= MaxCantidad(articulos, idx)
  }

  /** Both the default quantity and non-numeric input are within the
      declared bounds of any line whose quantity is positive. */
  lemma DefaultQuantityInRange(articulos: seq<CartItem>, idx: int, input: NumParam)
    requires !input.Number?
    requires 0 <= idx < |articulos| ==> articulos[idx].cantidad >= 1
    ensures CantidadInRange(ParseCantidad(input), articulos, idx)
  {
  }

  datatype FormData = FormData(productoIdx: int, cantidad: int, motivo: string)

  class FormularioDevolucion {
    var pedido: Option<Pedido>
    var cargando: bool
    var enviando: bool
    var error: Option<string>
    var exito: bool
    var formData: FormData

    constructor ()
      ensures pedido.None? && cargando && !enviando && error.None? && !exito
      ensures formData == FormData(0, 1, "")
    {
      pedido := None;
      cargando := true;
      enviando := false;
      error := None;
      exito := false;
      formData := FormData(0, 1, "");
    }

    /** `fetchPedido` at client time `now`: the order is kept only when it is
        still within the window; on any failure the error is shown and the
        previous order stays. */
    method FetchPedido(configured: bool, pedidoId: string, reply: PedidoReply, now: int)
      modifies this
      ensures !configured || pedidoId == "" ==>
        pedido == old(pedido) && cargando == old(cargando) && error == old(error)
      ensures configured && pedidoId != "" ==> !cargando
      ensures configured && pedidoId != "" ==>
        match reply
        case LoadError(m) => pedido == old(pedido) && error == Some(if m == "" then "Error al cargar el pedido" else m)
        case NotFound => pedido == old(pedido) && error == Some("Pedido no encontrado")
        case Found(p) =>
          if MisPedidos.PuedeSolicitarDevolucion(p.creadoAt, now) then pedido == Some(p) && error.None?
          else pedido == old(pedido) && error == Some(EXPIRED_MESSAGE)
      ensures enviando == old(enviando) && exito == old(exito) && formData == old(formData)
    {
      if !configured || pedidoId == "" {
        return;
      }
      cargando := true;
      error := None;
      match reply {
        case LoadError(m) =>
          error := Some(if m == "" then "Error al cargar el pedido" else m);
        case NotFound =>
          error := Some("Pedido no encontrado");
        case Found(p) =>
          if ElapsedDays(now, p.creadoAt) > RETURN_WINDOW_DAYS {
            error := Some(EXPIRED_MESSAGE);
          } else {
            pedido := Some(p);
          }
      }
      cargando := false;
    }

    method SetCantidad(input: NumParam)
      modifies this
      ensures formData == old(formData).(cantidad := ParseCantidad(input))
      ensures pedido == old(pedido) && error == old(error) && exito == old(exito)
      ensures cargando == old(cargando) && enviando == old(enviando)
    {
      formData := formData.(cantidad := ParseCantidad(input));
    }

    /** `handleSubmit`: `sent` is the row given to the insert, if any;
        `insertError` is the insert's error message. */
    method HandleSubmit(configured: bool, user: Option<User>, newId: string, insertError: Option<string>)
      returns (sent: Option<Devolucion>)
      modifies this
      ensures !configured || pedido.None? || user.None? ==>
        sent.None? && error == old(error) && exito == old(exito) && enviando == old(enviando)
      ensures configured && pedido.Some? && user.Some? ==> !enviando
      ensures configured && pedido.Some? && user.Some? &&
              !(0 <= formData.productoIdx < |pedido.value.articulos|) ==>
        sent.None? && error == Some(INVALID_PRODUCT) && exito == old(exito)
      ensures configured && pedido.Some? && user.Some? &&
              0 <= formData.productoIdx < |pedido.value.articulos| ==>
        sent == Some(NewReturnRow(newId, pedido.value.id, pedido.value.articulos[formData.productoIdx].id,
                                  formData.cantidad, formData.motivo, pedido.value.creadoAt))
      ensures sent.Some? ==>
        0 <= formData.productoIdx < |pedido.value.articulos| &&
        sent.value == NewReturnRow(newId, pedido.value.id, pedido.value.articulos[formData.productoIdx].id,
                                   formData.cantidad, formData.motivo, pedido.value.creadoAt)
      ensures sent.Some? ==>
        (insertError.None? ==> exito && error.None?) &&
        (insertError.Some? ==> exito == old(exito) &&
                               error == Some(if insertError.value == "" then "Error al enviar la solicitud" else insertError.value))
      ensures pedido == old(pedido) && formData == old(formData) && cargando == old(cargando)
    {
      sent := None;
      if !configured || pedido.None? || user.None? {
        return;
      }
      enviando := true;
      error := None;
      var p := pedido.value;
      if !(0 <= formData.productoIdx < |p.articulos|) {
        error := Some(INVALID_PRODUCT);
      } else {
        var producto := p.articulos[formData.productoIdx];
        var row := NewReturnRow(newId, p.id, producto.id, formData.cantidad, formData.motivo, p.creadoAt);
        sent := Some(row);
        if insertError.Some? {
          error := Some(if insertError.value == "" then "Error al enviar la solicitud" else insertError.value);
        } else {
          exito := true;
        }
      }
      enviando := false;
    }
  }

  /** The page builds the same row as the API for the same request: status,
      reason default and deadline agree. */
  lemma SameRowAsApi(p: Pedido, idx: int, form: FormData, owner: string, newId: string,
                     devs: seq<Devolucion>, now: int)
    requires 0 <= idx < |p.articulos| && p.clienteId == owner && p.id != "" && owner != ""
    requires p.articulos[idx].id != "" && form.cantidad != 0
    requires MisPedidos.PuedeSolicitarDevolucion(p.creadoAt, now)
    requires DevolucionesRoute.PendingDuplicate(devs, p.id, p.articulos[idx].id).None?
    ensures var body := DevolucionesRoute.Body(p.id, p.articulos[idx].id, form.cantidad, form.motivo, owner);
      DevolucionesRoute.Admit(true, Some(body), [p], devs, now, newId, None) ==
      DevolucionesRoute.Created(NewReturnRow(newId, p.id, p.articulos[idx].id, form.cantidad, form.motivo, p.creadoAt))
  {
    var keep := DevolucionesRoute.OwnedBy(p.id, owner);
    assert Filter([p], keep) == [p] by {
      assert keep(p);
      FilterKeepsAll([p], keep);
    }
  }
}
