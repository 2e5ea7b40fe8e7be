/** The site header (src/components/Header.tsx): the cart badge count, whether
    the cart link is shown, and which user area is rendered. */
module Header {
  import opened Common
  import opened Domain
  import opened Text
  import opened CartContext

  function Units(item: CartItem): int
  {
    Qty(item.cantidad)
  }

  /** `cart.reduce((acc, item) => acc + (item.cantidad || 1), 0)`. */
  function Count(cart: seq<CartItem>): (n: int)
    ensures cart == [] ==> n == 0
  {
    SumOver(cart, Units)
  }

  /** The count uses the same quantity default as the context's `total`: it is
      the total the cart would have if every price were 1. */
  lemma CountIsUnitPriceTotal(cart: seq<CartItem>)
    requires forall i :: 0 <= i < |cart| ==> cart[i].precio == 1
    ensures Count(cart) == CartTotal(cart)
  {
    SumPointwise(cart, Units, LineTotal);
  }

  /** In a valid cart every line contributes at least one unit. */
  lemma {:induction false} CountAtLeastLines(cart: seq<CartItem>)
    requires ValidCart(cart)
    ensures Count(cart) >= |cart|
  {
    if cart != [] {
      assert ValidCart(cart[1..]);
      CountAtLeastLines(cart[1..]);
    }
  }

  /** Adding a new product raises the count by one. */
  lemma CountAfterAddNew(cart: seq<CartItem>, p: Producto)
    requires p.id != "" && !HasId(cart, p.id)
    ensures Count(Added(cart, Some(p))) == Count(cart) + 1
  {
    SumConcat(cart, [NewLine(p)], Units);
  }

  /** `!pathname?.startsWith("/admin")`: an absent pathname shows the link. */
  predicate ShowCart(pathname: Option<string>): (r: bool)
    ensures pathname.None? ==> r
    ensures pathname.Some? && |pathname.value| < 6 ==> r
  {
    !(pathname.Some? && StartsWith(pathname.value, "/admin"))
  }

  /** The cart link is hidden exactly on the admin paths. */
  lemma ShowCartIff(pathname: Option<string>)
    ensures ShowCart(pathname) <==> pathname.None? || !("/admin" <= pathname.value)
    ensures forall rest :: !ShowCart(Some("/admin" + rest))
  {
  }

  /** What the right-hand side of the header shows. */
  datatype UserArea = SignedIn(email: string) | LoginLink

  function UserAreaFor(user: Option<User>): (a: UserArea)
    ensures a.SignedIn? <==> user.Some?
    ensures a.SignedIn? ==> a.email == user.value.email
  {
    if user.Some? then SignedIn(user.value.email) else LoginLink
  }
}
