/** The shopping cart context (src/context/CartContext.tsx): a list of line
    items keyed by product id that `addToCart`, `removeFromCart` and
    `clearCart` replace, the `total` reduce, and `enviarPedido`, which turns
    the cart into a `Pendiente` order through a sequence of remote writes. */
module CartContext {
  import opened Common
  import opened Domain

  /** The product record `addToCart` receives (`null` is `None`). */
  datatype Producto = Producto(id: string, nombre: string, precio: int)

  /** `cantidad || 1`. */
  function Qty(c: int): (q: int)
    ensures c != 0 ==> q == c
    ensures c == 0 ==> q == 1
  {
    if c == 0 then 1 else c
  }

  predicate HasId(cart: seq<CartItem>, id: string)
  {
    exists i :: 0 <= i < |cart| && cart[i].id == id
  }

  /** No two lines share a product id. */
  predicate UniqueIds(cart: seq<CartItem>)
  {
    forall i, j :: 0 <= i < j < |cart| ==> cart[i].id != cart[j].id
  }

  /** The cart invariant: ids are unique and every quantity is at least 1. */
  predicate ValidCart(cart: seq<CartItem>)
  {
    UniqueIds(cart) && forall i :: 0 <= i < |cart| ==> cart[i].cantidad >= 1
  }

  /** `cart.find(item => item.id === id)`: the first line with that id. */
  function Find(cart: seq<CartItem>, id: string): (r: Option<CartItem>)
    ensures r.Some? <==> HasId(cart, id)
    ensures r.Some? ==> exists i :: 0 <= i < |cart| && cart[i] == r.value && r.value.id == id &&
                                    forall j :: 0 <= j < i ==> cart[j].id != id
  {
    if cart == [] then None
    else if cart[0].id == id then Some(cart[0])
    else
      var r := Find(cart[1..], id);
      assert r.Some? ==> exists i :: 0 <= i < |cart| && cart[i] == r.value && r.value.id == id &&
                                     forall j :: 0 <= j < i ==> cart[j].id != id by {
        if r.Some? {
          var i :| 0 <= i < |cart[1..]| && cart[1..][i] == r.value && r.value.id == id &&
                   forall j :: 0 <= j < i ==> cart[1..][j].id != id;
          assert cart[i + 1] == r.value;
          assert forall j :: 0 <= j < i + 1 ==> cart[j].id != id by {
            forall j | 0 <= j < i + 1 ensures cart[j].id != id {
              if j > 0 { assert cart[j] == cart[1..][j - 1]; }
            }
          }
        }
      }
      assert HasId(cart[1..], id) ==> HasId(cart, id) by {
        if HasId(cart[1..], id) {
          var i :| 0 <= i < |cart[1..]| && cart[1..][i].id == id;
          assert cart[i + 1].id == id;
        }
      }
      assert HasId(cart, id) ==> HasId(cart[1..], id) by {
        if HasId(cart, id) {
          var i :| 0 <= i < |cart| && cart[i].id == id;
          assert cart[1..][i - 1].id == id;
        }
      }
      r
  }

  /** The `map` of `addToCart` for a product already in the cart. */
  function Bumped(cart: seq<CartItem>, id: string): seq<CartItem>
  {
    seq(|cart|, i requires 0 <= i < |cart| =>
      if cart[i].id == id then cart[i].(cantidad := Qty(cart[i].cantidad) + 1) else cart[i])
  }

  /** The `map` of `removeFromCart` when the first match has more than one unit. */
  function Lowered(cart: seq<CartItem>, id: string): seq<CartItem>
  {
    seq(|cart|, i requires 0 <= i < |cart| =>
      if cart[i].id == id then cart[i].(cantidad := cart[i].cantidad - 1) else cart[i])
  }

  function NewLine(p: Producto): CartItem
  {
    CartItem(p.id, p.nombre, p.precio, 1)
  }

  /** The cart after `addToCart(p)`. */
  function Added(cart: seq<CartItem>, p: Option<Producto>): (r: seq<CartItem>)
    // a missing product, or one without id, changes nothing
    ensures p.None? || p.value.id == "" ==> r == cart
    // a product already present: same length and order, only its quantity grows
    ensures p.Some? && p.value.id != "" && HasId(cart, p.value.id) ==>
      |r| == |cart| &&
      forall i :: 0 <= i < |cart| ==>
        r[i].(cantidad := cart[i].cantidad) == cart[i] &&
        r[i].cantidad == (if cart[i].id == p.value.id then Qty(cart[i].cantidad) + 1 else cart[i].cantidad)
    // a new product: appended at the end with quantity 1
    ensures p.Some? && p.value.id != "" && !HasId(cart, p.value.id) ==>
      r == cart + [CartItem(p.value.id, p.value.nombre, p.value.precio, 1)]
  {
    if p.None? || p.value.id == "" then cart
    else if Find(cart, p.value.id).Some? then Bumped(cart, p.value.id)
    else cart + [NewLine(p.value)]
  }

  /** The line a removal of `id` keeps: every other line. */
  function OtherId(id: string): CartItem -> bool
  {
    (item: CartItem) => item.id != id
  }

  /** The cart after `removeFromCart(id)`. */
  function Removed(cart: seq<CartItem>, id: string): (r: seq<CartItem>)
    // the first line with that id has more than one unit: decrement
    ensures Find(cart, id).Some? && Find(cart, id).value.cantidad > 1 ==>
      |r| == |cart| &&
      forall i :: 0 <= i < |cart| ==>
        r[i].(cantidad := cart[i].cantidad) == cart[i] &&
        r[i].cantidad == (if cart[i].id == id then cart[i].cantidad - 1 else cart[i].cantidad)
    // otherwise every line with that id goes, and nothing else
    ensures !(Find(cart, id).Some? && Find(cart, id).value.cantidad > 1) ==>
      (forall x :: x in r <==> x in cart && x.id != id) &&
      r == Filter(cart, OtherId(id))
    // an absent id is a no-op
    ensures !HasId(cart, id) ==> r == cart
  {
    var found := Find(cart, id);
    if found.Some? && found.value.cantidad > 1 then Lowered(cart, id)
    else
      var r := Filter(cart, OtherId(id));
      assert !HasId(cart, id) ==> r == cart by {
        if !HasId(cart, id) {
          FilterKeepsAll(cart, OtherId(id));
        }
      }
      r
  }

  // ---------------------------------------------------------------------
  // Sums over the cart
  // ---------------------------------------------------------------------

  /** `cart.reduce((acc, item) => acc + f(item), 0)`. */
  function SumOver(cart: seq<CartItem>, f: CartItem -> int): int
  {
    if cart == [] then 0 else f(cart[0]) + SumOver(cart[1..], f)
  }

  /** `Number(item.precio) * (item.cantidad || 1)`. */
  function LineTotal(item: CartItem): (r: int)
    ensures item.cantidad == 0 ==> r == item.precio
    ensures item.cantidad != 0 ==> r == item.precio * item.cantidad
  {
    item.precio * Qty(item.cantidad)
  }

  /** The context's `total`. */
  function CartTotal(cart: seq<CartItem>): (r: int)
    ensures cart == [] ==> r == 0
    ensures |cart| == 1 ==> r == LineTotal(cart[0])
  {
    assert |cart| == 1 ==> cart[1..] == [] && SumOver(cart, LineTotal) == LineTotal(cart[0]) + SumOver([], LineTotal);
    SumOver(cart, LineTotal)
  }

  lemma {:induction false} SumConcat(a: seq<CartItem>, b: seq<CartItem>, f: CartItem -> int)
    ensures SumOver(a + b, f) == SumOver(a, f) + SumOver(b, f)
  {
    if a == [] {
      assert a + b == b;
    } else {
      assert (a + b)[1..] == a[1..] + b;
      SumConcat(a[1..], b, f);
    }
  }

  /** Two per-line functions that agree on every line give the same sum. */
  lemma {:induction false} SumPointwise(cart: seq<CartItem>, f: CartItem -> int, g: CartItem -> int)
    requires forall i :: 0 <= i < |cart| ==> f(cart[i]) == g(cart[i])
    ensures SumOver(cart, f) == SumOver(cart, g)
  {
    if cart != [] {
      SumPointwise(cart[1..], f, g);
    }
  }

  /** The total of an empty cart is 0 and a single line adds its own total. */
  lemma TotalOfAppend(cart: seq<CartItem>, item: CartItem)
    ensures CartTotal(cart + [item]) == CartTotal(cart) + item.precio * Qty(item.cantidad)
  {
    SumConcat(cart, [item], LineTotal);
  }

  // ---------------------------------------------------------------------
  // Properties of add and remove
  // ---------------------------------------------------------------------

  lemma BumpedKeepsValid(cart: seq<CartItem>, id: string)
    requires ValidCart(cart)
    ensures ValidCart(Bumped(cart, id))
  {
  }

  /** `addToCart` keeps the cart invariant. */
  lemma AddKeepsValid(cart: seq<CartItem>, p: Option<Producto>)
    requires ValidCart(cart)
    ensures ValidCart(Added(cart, p))
  {
    if p.Some? && p.value.id != "" && !HasId(cart, p.value.id) {
      var r := Added(cart, p);
      forall i, j | 0 <= i < j < |r| ensures r[i].id != r[j].id {
        if j == |cart| {
          assert r[i] == cart[i];
        }
      }
    }
  }

  /** `removeFromCart` keeps the cart invariant. */
  lemma RemoveKeepsValid(cart: seq<CartItem>, id: string)
    requires ValidCart(cart)
    ensures ValidCart(Removed(cart, id))
  {
    var found := Find(cart, id);
    if !(found.Some? && found.value.cantidad > 1) {
      FilterKeepsValid(cart, OtherId(id));
    }
  }

  lemma {:induction false} FilterKeepsValid(cart: seq<CartItem>, keep: CartItem -> bool)
    requires ValidCart(cart)
    ensures ValidCart(Filter(cart, keep))
  {
    if cart != [] {
      FilterKeepsValid(cart[1..], keep);
      var rest := Filter(cart[1..], keep);
      assert forall x :: x in rest ==> x in cart[1..];
      if keep(cart[0]) {
        var r := [cart[0]] + rest;
        forall i, j | 0 <= i < j < |r| ensures r[i].id != r[j].id {
          if i == 0 {
            assert r[j] in cart[1..];
          }
        }
      }
    }
  }

  /** Adding a product that was not in a valid cart and then removing it
      gives the original cart back. */
  lemma AddThenRemoveRestores(cart: seq<CartItem>, p: Producto)
    requires ValidCart(cart) && p.id != "" && !HasId(cart, p.id)
    ensures Removed(Added(cart, Some(p)), p.id) == cart
  {
    var added := cart + [NewLine(p)];
    assert Added(cart, Some(p)) == added;
    assert Find(added, p.id) == Some(NewLine(p)) by {
      assert !HasId(cart, p.id);
      FindAppend(cart, NewLine(p), p.id);
    }
    FilterConcat(cart, [NewLine(p)], OtherId(p.id));
    FilterKeepsAll(cart, OtherId(p.id));
    FilterDropsAll([NewLine(p)], OtherId(p.id));
  }

  lemma {:induction false} FindAppend(cart: seq<CartItem>, item: CartItem, id: string)
    requires !HasId(cart, id) && item.id == id
    ensures Find(cart + [item], id) == Some(item)
  {
    if cart != [] {
      assert (cart + [item])[1..] == cart[1..] + [item];
      forall i | 0 <= i < |cart[1..]| ensures cart[1..][i].id != id {
        assert cart[1..][i] == cart[i + 1];
      }
      assert cart[0].id != id;
      FindAppend(cart[1..], item, id);
    }
  }

  /** In a valid cart, adding a product already present raises the total by
      that line's stored price (the line keeps its own price). */
  lemma {:induction false} TotalAfterAddExisting(cart: seq<CartItem>, p: Producto, k: int)
    requires ValidCart(cart) && 0 <= k < |cart| && cart[k].id == p.id && p.id != ""
    ensures CartTotal(Added(cart, Some(p))) == CartTotal(cart) + cart[k].precio
  {
    assert HasId(cart, p.id);
    BumpedTotal(cart, p.id, k);
  }

  lemma {:induction false} BumpedTotal(cart: seq<CartItem>, id: string, k: int)
    requires ValidCart(cart) && 0 <= k < |cart| && cart[k].id == id
    ensures CartTotal(Bumped(cart, id)) == CartTotal(cart) + cart[k].precio
  {
    var b := Bumped(cart, id);
    assert b[1..] == Bumped(cart[1..], id);
    if k == 0 {
      assert ValidCart(cart[1..]);
      assert forall i :: 0 <= i < |cart[1..]| ==> cart[1..][i].id != id;
      assert Bumped(cart[1..], id) == cart[1..];
      assert b[0].precio * Qty(b[0].cantidad) == cart[0].precio * cart[0].cantidad + cart[0].precio;
    } else {
      assert ValidCart(cart[1..]);
      BumpedTotal(cart[1..], id, k - 1);
      assert b[0] == cart[0];
    }
  }

  /** Adding a new product raises the total by its price. */
  lemma TotalAfterAddNew(cart: seq<CartItem>, p: Producto)
    requires p.id != "" && !HasId(cart, p.id)
    ensures CartTotal(Added(cart, Some(p))) == CartTotal(cart) + p.precio
  {
    TotalOfAppend(cart, NewLine(p));
  }

  /** In a valid cart, removing a present product lowers the total by that
      line's price, whether the line is decremented or dropped. */
  lemma {:induction false} TotalAfterRemove(cart: seq<CartItem>, k: int)
    requires ValidCart(cart) && 0 <= k < |cart|
    ensures CartTotal(Removed(cart, cart[k].id)) == CartTotal(cart) - cart[k].precio
  {
    var id := cart[k].id;
    var found := Find(cart, id);
    assert found == Some(cart[k]);
    if cart[k].cantidad > 1 {
      LoweredTotal(cart, id, k);
    } else {
      FilterTotal(cart, id, k);
    }
  }

  lemma {:induction false} LoweredTotal(cart: seq<CartItem>, id: string, k: int)
    requires ValidCart(cart) && 0 <= k < |cart| && cart[k].id == id && cart[k].cantidad > 1
    ensures CartTotal(Lowered(cart, id)) == CartTotal(cart) - cart[k].precio
  {
    var l := Lowered(cart, id);
    assert l[1..] == Lowered(cart[1..], id);
    assert ValidCart(cart[1..]);
    if k == 0 {
      assert forall i :: 0 <= i < |cart[1..]| ==> cart[1..][i].id != id;
      assert Lowered(cart[1..], id) == cart[1..];
      assert l[0].precio * Qty(l[0].cantidad) == cart[0].precio * cart[0].cantidad - cart[0].precio;
    } else {
      LoweredTotal(cart[1..], id, k - 1);
      assert l[0] == cart[0];
    }
  }

  lemma {:induction false} FilterTotal(cart: seq<CartItem>, id: string, k: int)
    requires ValidCart(cart) && 0 <= k < |cart| && cart[k].id == id && cart[k].cantidad == 1
    ensures CartTotal(Filter(cart, OtherId(id))) == CartTotal(cart) - cart[k].precio
  {
    assert ValidCart(cart[1..]);
    if k == 0 {
      assert forall i :: 0 <= i < |cart[1..]| ==> OtherId(id)(cart[1..][i]);
      FilterKeepsAll(cart[1..], OtherId(id));
      assert Filter(cart, OtherId(id)) == Filter(cart[1..], OtherId(id));
      assert CartTotal(cart) == cart[0].precio + CartTotal(cart[1..]);
    } else {
      FilterTotal(cart[1..], id, k - 1);
    }
  }

  // ---------------------------------------------------------------------
  // enviarPedido
  // ---------------------------------------------------------------------

  datatype User = User(id: string, email: string)

  /** The shipping data the cart page passes in. */
  datatype DatosEnvio = DatosEnvio(nombre: string, telefono: string, direccion: string)

  /** The remote writes `enviarPedido` issues, in order. */
  datatype Write =
    | UpsertPerfil(perfilId: string, email: string, nombre: string, telefono: string)
    | InsertDireccion(clienteId: string, calle: string)
    | InsertPedido(pedido: Pedido)

  datatype OrderError =
    | NotSignedIn        // "Inicia sesión primero"
    | NotConfigured      // the browser client could not be built
    | ProfileFailed(message: string)
    | OrderFailed(message: string)

  /** The writes issued and the outcome: the stored order or the error thrown. */
  datatype Checkout = Checkout(writes: seq<Write>, result: Result<Pedido, OrderError>)

  predicate IsOrderInsert(w: Write)
  {
    w.InsertPedido?
  }

  /** The order row `enviarPedido` inserts for this cart. */
  function OrderRow(newId: string, user: User, cart: seq<CartItem>, datos: DatosEnvio, now: int): (p: Pedido)
    ensures p.estado == PENDIENTE && p.articulos == cart && p.total == CartTotal(cart)
    ensures p.clienteId == user.id && p.direccionEntrega == datos.direccion
  {
    Pedido(newId, user.id, now, CartTotal(cart), cart, datos.direccion, PENDIENTE)
  }

  /** `enviarPedido(datos)` with the remote replies as inputs: the profile
      upsert error, whether the address was found, and the order insert's
      reply (the new row's id, or the error message). The address insert's
      own error is not looked at. */
  function PlaceOrder(cart: seq<CartItem>, user: Option<User>, configured: bool, datos: DatosEnvio,
                      profileError: Option<string>, addressFound: bool,
                      orderReply: Result<string, string>, now: int): (c: Checkout)
    // no user, or no client: fails before any write
    ensures user.None? ==> c == Checkout([], Err(NotSignedIn))
    ensures user.Some? && !configured ==> c == Checkout([], Err(NotConfigured))
    // the profile upsert comes first
    ensures user.Some? && configured ==>
      |c.writes| > 0 && c.writes[0] == UpsertPerfil(user.value.id, user.value.email, datos.nombre, datos.telefono)
    // a failed profile upsert stops before the order is written, with its message
    ensures profileError.Some? ==> forall i :: 0 <= i < |c.writes| ==> !IsOrderInsert(c.writes[i])
    ensures user.Some? && configured && profileError.Some? ==>
      c.result == Err(ProfileFailed(profileError.value)) && |c.writes| == 1
    // the address is inserted iff none matched, and the order insert comes last
    ensures user.Some? && configured && profileError.None? ==>
      (InsertDireccion(user.value.id, datos.direccion) in c.writes <==> !addressFound) &&
      |c.writes| == (if addressFound then 2 else 3) && IsOrderInsert(c.writes[|c.writes| - 1])
    // a failed order insert reports its message
    ensures user.Some? && configured && profileError.None? && orderReply.Err? ==>
      c.result == Err(OrderFailed(orderReply.error))
    ensures c.result.Ok? <==> user.Some? && configured && profileError.None? && orderReply.Ok?
    // the stored order: pending, with the cart's lines and total, written last
    ensures c.result.Ok? ==>
      c.result.value.estado == PENDIENTE && c.result.value.articulos == cart &&
      c.result.value.total == CartTotal(cart) && c.result.value.clienteId == user.value.id &&
      |c.writes| > 0 && c.writes[|c.writes| - 1] == InsertPedido(c.result.value)
  {
    if user.None? then Checkout([], Err(NotSignedIn))
    else if !configured then Checkout([], Err(NotConfigured))
    else
      var u := user.value;
      var upsert := UpsertPerfil(u.id, u.email, datos.nombre, datos.telefono);
      if profileError.Some? then Checkout([upsert], Err(ProfileFailed(profileError.value)))
      else
        var address := if addressFound then [] else [InsertDireccion(u.id, datos.direccion)];
        var row := OrderRow(if orderReply.Ok? then orderReply.value else "", u, cart, datos, now);
        var writes := [upsert] + address + [InsertPedido(row)];
        if orderReply.Err? then Checkout(writes, Err(OrderFailed(orderReply.error)))
        else Checkout(writes, Ok(row))
  }

  /** The provider's cart state. */
  class Cart {
    var items: seq<CartItem>

    ghost predicate Valid()
      reads this
    {
      ValidCart(items)
    }

    constructor ()
      ensures items == [] && Valid()
    {
      items := [];
    }

    function Total(): (t: int)
      reads this
      ensures t == CartTotal(items)
    {
      CartTotal(items)
    }

    method AddToCart(p: Option<Producto>)
      requires Valid()
      modifies this
      ensures Valid()
      ensures items == Added(old(items), p)
    {
      AddKeepsValid(items, p);
      items := Added(items, p);
    }

    method RemoveFromCart(id: string)
      requires Valid()
      modifies this
      ensures Valid()
      ensures items == Removed(old(items), id)
    {
      RemoveKeepsValid(items, id);
      items := Removed(items, id);
    }

    method ClearCart()
      modifies this
      ensures Valid() && items == []
    {
      items := [];
    }

    /** Runs the checkout; the cart is emptied only when the order was stored. */
    method EnviarPedido(user: Option<User>, configured: bool, datos: DatosEnvio,
                        profileError: Option<string>, addressFound: bool,
                        orderReply: Result<string, string>, now: int) returns (c: Checkout)
      requires Valid()
      modifies this
      ensures Valid()
      ensures c == PlaceOrder(old(items), user, configured, datos, profileError, addressFound, orderReply, now)
      ensures items == if c.result.Ok? then [] else old(items)
    {
      c := PlaceOrder(items, user, configured, datos, profileError, addressFound, orderReply, now);
      if c.result.Ok? {
        items := [];
      }
    }
  }
}
