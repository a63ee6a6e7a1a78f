/**
 * The cart sidebar: it shows the unit count in its header, and routes the quantity
 * buttons either to removing the line or to setting its quantity.
 */
module CartSidebar {
  import opened Wrappers
  import opened Collection
  import Cart

  /** The cart operation a quantity change calls. */
  datatype CartCall = RemoveFromCart(id: string) | UpdateQuantity(id: string, quantity: int)

  /** handleQuantityChange: a requested quantity of zero or less removes the line. */
  function QuantityChange(productId: string, newQuantity: int): (c: CartCall)
    ensures c.id == productId
    ensures c.RemoveFromCart? <==> newQuantity <= 0
    ensures c.UpdateQuantity? ==> c.quantity == newQuantity
  {
    if newQuantity <= 0 then RemoveFromCart(productId) else UpdateQuantity(productId, newQuantity)
  }

  /** The minus button of a line. */
  function Minus(line: Doc<Cart.CartLine>): CartCall
  {
    QuantityChange(line.id, line.data.quantity - 1)
  }

  /** The plus button of a line. */
  function Plus(line: Doc<Cart.CartLine>): CartCall
  {
    QuantityChange(line.id, line.data.quantity + 1)
  }

  /** What a call writes to the signed-in user's cart collection. */
  function Effect(s: Cart.Store, c: CartCall): Cart.Store
  {
    match c
    case RemoveFromCart(id) => Cart.Remove(s, id)
    case UpdateQuantity(id, n) => Cart.SetQuantity(s, id, n)
  }

  /** The routing agrees with updateQuantity's own rule: either way the write is SetQuantity. */
  lemma RoutingAgreesWithUpdate(s: Cart.Store, id: string, n: int)
    ensures Effect(s, QuantityChange(id, n)) == Cart.SetQuantity(s, id, n)
  {
  }

  /** Minus on a line of quantity 1 removes it; on a larger quantity it lowers it by one. */
  lemma MinusButton(s: Cart.Store, line: Doc<Cart.CartLine>)
    requires line.id in s && s[line.id] == line.data
    ensures line.data.quantity == 1 ==> Minus(line) == RemoveFromCart(line.id) && line.id !in Effect(s, Minus(line))
    ensures line.data.quantity > 1 ==> Effect(s, Minus(line)) == s[line.id := line.data.(quantity := line.data.quantity - 1)]
  {
  }

  /** Plus on a line of quantity at least 1 requests quantity + 1 and adds one unit to the count. */
  lemma PlusButton(s: Cart.Store, line: Doc<Cart.CartLine>)
    requires line.id in s && s[line.id] == line.data && line.data.quantity >= 1
    ensures Plus(line) == UpdateQuantity(line.id, line.data.quantity + 1)
    ensures Effect(s, Plus(line)) == s[line.id := line.data.(quantity := line.data.quantity + 1)]
    ensures MapSum(Effect(s, Plus(line)), Cart.Quantity) == MapSum(s, Cart.Quantity) + 1
  {
    Cart.QuantityChangeTotals(s, line.id, line.data.quantity + 1);
  }

  /** The header shows units, not lines: at least one per line, and more as soon as a line holds two. */
  lemma {:induction false} HeaderCount(items: seq<Doc<Cart.CartLine>>)
    requires Cart.MirrorWellFormed(items)
    ensures Cart.TotalItems(items) >= |items|
    ensures Cart.TotalItems(items) == |items| <==> forall i :: 0 <= i < |items| ==> items[i].data.quantity == 1
  {
    if items != [] {
      assert Cart.MirrorWellFormed(items[1..]) by {
        forall i | 0 <= i < |items[1..]| ensures items[1..][i].data.quantity >= 1 && items[1..][i].data.product.id == items[1..][i].id {
          assert items[1..][i] == items[i + 1];
        }
      }
      HeaderCount(items[1..]);
      if forall i :: 0 <= i < |items| ==> items[i].data.quantity == 1 {
        assert forall i :: 0 <= i < |items[1..]| ==> items[1..][i].data.quantity == 1 by {
          forall i | 0 <= i < |items[1..]| ensures items[1..][i].data.quantity == 1 {
            assert items[1..][i] == items[i + 1];
          }
        }
      } else if items[0].data.quantity == 1 {
        var i :| 0 <= i < |items| && items[i].data.quantity != 1;
        assert items[1..][i - 1] == items[i];
      }
    }
  }

  /** Where the checkout link leads. */
  function CheckoutHref(user: Option<string>): (href: string)
    ensures href == "/checkout" <==> user.Some?
    ensures href == "/auth" <==> user.None?
  {
    if user.Some? then "/checkout" else "/auth"
  }

  /** handleQuantityChange, as called by the buttons. */
  method HandleQuantityChange(cart: Cart.CartProvider, productId: string, newQuantity: int)
    requires cart.Valid()
    modifies cart`remote
    ensures cart.Valid()
    ensures cart.user.None? ==> cart.remote == old(cart.remote)
    ensures cart.user.Some? ==>
      cart.remote == old(cart.remote)[cart.user.value := Cart.SetQuantity(old(cart.Docs(cart.user.value)), productId, newQuantity)]
  {
    if newQuantity <= 0 {
      cart.RemoveFromCart(productId);
    } else {
      cart.UpdateQuantity(productId, newQuantity);
    }
  }
}
