/** The cart page (src/app/carrito/page.tsx): per-line subtotals, the
    checkout total and the guards of `handleConfirmar`. */
module Carrito {
  import opened Common
  import opened Domain
  import opened CartContext

  /** `Number(item.precio || 0) * (item.cantidad || 0)`: prices are integers
      here, so the `|| 0` defaults change nothing. */
  function Subtotal(item: CartItem): (r: int)
    ensures item.cantidad == 0 ==> r == 0
    ensures item.cantidad != 0 ==> r == LineTotal(item)
  {
    item.precio * item.cantidad
  }

  /** The page's own `total` reduce. */
  function CheckoutTotal(cart: seq<CartItem>): (t: int)
    ensures cart == [] ==> t == 0
  {
    SumOver(cart, Subtotal)
  }

  /** The page's total is the sum of the line subtotals it displays. */
  lemma {:induction false} CheckoutTotalOfLines(a: seq<CartItem>, b: seq<CartItem>)
    ensures CheckoutTotal(a + b) == CheckoutTotal(a) + CheckoutTotal(b)
  {
    SumConcat(a, b, Subtotal);
  }

  /** With every quantity present and non-zero, the page shows the same total
      as the context, although one defaults a missing quantity to 0 and the
      other to 1. */
  lemma CheckoutMatchesContext(cart: seq<CartItem>)
    requires forall i :: 0 <= i < |cart| ==> cart[i].cantidad != 0
    ensures CheckoutTotal(cart) == CartTotal(cart)
  {
    SumPointwise(cart, Subtotal, LineTotal);
  }

  /** A valid cart meets the condition above. */
  lemma ValidCartTotalsAgree(cart: seq<CartItem>)
    requires ValidCart(cart)
    ensures CheckoutTotal(cart) == CartTotal(cart)
  {
    CheckoutMatchesContext(cart);
  }

  /** A line whose quantity is missing counts 0 on this page and 1 in the
      context. */
  lemma MissingQuantityDiffers(item: CartItem)
    requires item.cantidad == 0
    ensures CheckoutTotal([item]) == 0 && CartTotal([item]) == item.precio
  {
    assert [item][1..] == [];
    assert SumOver([item], Subtotal) == Subtotal(item) + SumOver([], Subtotal);
    assert SumOver([item], LineTotal) == LineTotal(item) + SumOver([], LineTotal);
  }

  /** `disabled={isSubmitting || cart.length === 0}`. */
  predicate ConfirmDisabled(isSubmitting: bool, cart: seq<CartItem>): (r: bool)
    ensures isSubmitting ==> r
    ensures !isSubmitting ==> (r <==> cart == [])
  {
    isSubmitting || |cart| == 0
  }

  /** `e?.message || "Error al enviar el pedido"` for the errors `enviarPedido` throws. */
  function ErrorMessage(e: OrderError): (m: string)
    ensures m != ""
  {
    match e
    case NotSignedIn => "Inicia sesión primero"
    case NotConfigured => "Supabase no está configurado. No se puede enviar el pedido ahora."
    case ProfileFailed(msg) => "Error Perfil: " + msg
    case OrderFailed(msg) => "Error Pedido: " + msg
  }

  class CarritoPage {
    const cart: Cart
    var completado: bool
    var isSubmitting: bool
    var errorMsg: Option<string>

    ghost predicate Valid()
      reads this, cart
    {
      cart.Valid()
    }

    constructor (c: Cart)
      requires c.Valid()
      ensures cart == c && !completado && !isSubmitting && errorMsg.None? && Valid()
    {
      cart := c;
      completado := false;
      isSubmitting := false;
      errorMsg := None;
    }

    /** `handleConfirmar`: nothing happens with an empty cart or without a
        user; otherwise the order is sent, and the outcome decides between
        the completed page with an empty cart and an error message with the
        cart kept. `submitted` is the checkout that was run, if any. */
    method HandleConfirmar(user: Option<User>, configured: bool, datos: DatosEnvio,
                           profileError: Option<string>, addressFound: bool,
                           orderReply: Result<string, string>, now: int)
      returns (submitted: Option<Checkout>)
      requires Valid()
      modifies this, cart
      ensures Valid()
      ensures old(cart.items) == [] || user.None? ==>
        submitted.None? && cart.items == old(cart.items) && completado == old(completado) &&
        isSubmitting == old(isSubmitting) && errorMsg == old(errorMsg)
      ensures old(cart.items) != [] && user.Some? ==>
        submitted == Some(PlaceOrder(old(cart.items), user, configured, datos, profileError,
                                     addressFound, orderReply, now)) &&
        !isSubmitting
      ensures submitted.Some? && submitted.value.result.Ok? ==>
        completado && cart.items == [] && errorMsg.None?
      ensures submitted.Some? && submitted.value.result.Err? ==>
        errorMsg == Some(ErrorMessage(submitted.value.result.error)) &&
        cart.items == old(cart.items) && completado == old(completado)
    {
      submitted := None;
      if cart.items == [] {
        return;
      }
      if user.None? {
        return;
      }
      isSubmitting := true;
      errorMsg := None;
      var c := cart.EnviarPedido(user, configured, datos, profileError, addressFound, orderReply, now);
      if c.result.Ok? {
        completado := true;
        cart.ClearCart();
      } else {
        errorMsg := Some(ErrorMessage(c.result.error));
      }
      isSubmitting := false;
      submitted := Some(c);
    }
  }
}
