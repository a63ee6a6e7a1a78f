/**
 * The cart context: a signed-in user's cart is a remote collection of lines keyed by
 * product id; the context keeps a mirror (`cart`) that each snapshot rebuilds, and every
 * operation writes the remote collection, deciding from the mirror what to write.
 * Money is integer paise.
 */
module Cart {
  import opened Wrappers
  import opened Collection

  /** A catalogue product; `price` is in paise. */
  datatype Product = Product(id: string, name: string, price: int, image: string, category: string, description: string)

  /** The fields of a cart document: the product's fields, the quantity and the time it was first added. */
  datatype CartLine = CartLine(product: Product, quantity: int, addedAt: int)

  /** One user's cart collection, keyed by product id. */
  type Store = map<string, CartLine>

  /** Every document sits under its product's id and holds at least one unit. */
  predicate WellFormed(s: Store)
  {
    forall k :: k in s ==> s[k].product.id == k && s[k].quantity >= 1
  }

  /** A mirror built from well-formed documents. */
  predicate MirrorWellFormed(items: seq<Doc<CartLine>>)
  {
    forall i :: 0 <= i < |items| ==> items[i].data.product.id == items[i].id && items[i].data.quantity >= 1
  }

  function Quantity(l: CartLine): int { l.quantity }

  function LineTotal(l: CartLine): int { l.product.price * l.quantity }

  /** getTotalItems: the number of units in the cart, not the number of lines. */
  function TotalItems(items: seq<Doc<CartLine>>): (n: int)
    ensures items == [] ==> n == 0
  {
    SumOf(items, Quantity)
  }

  /** getTotalPrice: the sum of price times quantity over the lines. */
  function TotalPrice(items: seq<Doc<CartLine>>): (p: int)
    ensures items == [] ==> p == 0
  {
    SumOf(items, LineTotal)
  }

  /** The totals of a faithful mirror are those of the collection, whatever the snapshot order. */
  lemma TotalsOfListing(items: seq<Doc<CartLine>>, s: Store)
    requires Lists(items, s)
    ensures TotalItems(items) == MapSum(s, Quantity)
    ensures TotalPrice(items) == MapSum(s, LineTotal)
  {
    ListedSum(items, s, Quantity);
    ListedSum(items, s, LineTotal);
  }

  /** Two snapshots of the same cart, in any two orders, show the same totals. */
  lemma TotalsIndependentOfOrder(a: seq<Doc<CartLine>>, b: seq<Doc<CartLine>>, s: Store)
    requires Lists(a, s) && Lists(b, s)
    ensures TotalItems(a) == TotalItems(b) && TotalPrice(a) == TotalPrice(b)
  {
    TotalsOfListing(a, s);
    TotalsOfListing(b, s);
  }

  // ----- the writes of the operations, on one user's collection -----

  /**
   * addToCart's write, given what the mirror holds for the product: an existing line has
   * its quantity set to the mirror's quantity plus one (an update, which fails and writes
   * nothing when the document is gone); otherwise the document is created with quantity 1.
   */
  function AddWrite(s: Store, existing: Option<Doc<CartLine>>, p: Product, now: int): (r: Store)
    ensures forall k :: k != p.id ==> (k in r <==> k in s) && (k in s ==> r[k] == s[k])
  {
    match existing
    case Some(line) =>
      if p.id in s then s[p.id := s[p.id].(quantity := line.data.quantity + 1)] else s
    case None => s[p.id := CartLine(p, 1, now)]
  }

  /** addToCart when the mirror is up to date. */
  function Added(s: Store, p: Product, now: int): Store
  {
    AddWrite(s, if p.id in s then Some(Doc(p.id, s[p.id])) else None, p, now)
  }

  /** updateQuantity's write: a non-positive quantity deletes the line, a positive one overwrites it (nothing changes when the line is missing). */
  function SetQuantity(s: Store, id: string, n: int): Store
  {
    if n <= 0 then s - {id}
    else if id in s then s[id := s[id].(quantity := n)]
    else s
  }

  /** removeFromCart's write. */
  function Remove(s: Store, id: string): Store
  {
    s - {id}
  }

  // ----- what the writes do -----

  /** With an up-to-date mirror, addToCart writes exactly what Added describes. */
  lemma AddWriteSynced(items: seq<Doc<CartLine>>, s: Store, p: Product, now: int)
    requires Lists(items, s)
    ensures AddWrite(s, Find(items, p.id), p, now) == Added(s, p, now)
  {
    FindListed(items, s, p.id);
  }

  /** Adding a product that is not in the cart creates one line under its id with quantity 1. */
  lemma AddCreatesLine(s: Store, p: Product, now: int)
    requires p.id !in s
    ensures Added(s, p, now) == s[p.id := CartLine(p, 1, now)]
    ensures |Added(s, p, now)| == |s| + 1
  {
  }

  /** Adding a product already in the cart raises its quantity by one and changes nothing else. */
  lemma AddMergesLine(s: Store, p: Product, now: int)
    requires p.id in s
    ensures Added(s, p, now) == s[p.id := s[p.id].(quantity := s[p.id].quantity + 1)]
    ensures |Added(s, p, now)| == |s|
  {
    assert Added(s, p, now).Keys == s.Keys;
  }

  /** `n` adds of the same product, each seeing the previous one's snapshot. */
  function AddedTimes(s: Store, p: Product, now: int, n: nat): Store
  {
    if n == 0 then s else Added(AddedTimes(s, p, now, n - 1), p, now)
  }

  /** The merge property: `n` adds of a product absent from the cart leave one line of quantity `n`. */
  lemma {:induction false} MergeCount(s: Store, p: Product, now: int, n: nat)
    requires p.id !in s
    ensures AddedTimes(s, p, now, n) == if n == 0 then s else s[p.id := CartLine(p, n, now)]
  {
    if n > 1 {
      MergeCount(s, p, now, n - 1);
      var prev := s[p.id := CartLine(p, n - 1, now)];
      assert Added(prev, p, now) == prev[p.id := CartLine(p, n, now)];
      assert prev[p.id := CartLine(p, n, now)] == s[p.id := CartLine(p, n, now)];
    }
  }

  /** Setting a quantity to 0 and then adding the product gives a fresh line of quantity 1. */
  lemma ZeroThenAdd(s: Store, p: Product, now: int)
    ensures Added(SetQuantity(s, p.id, 0), p, now) == (s - {p.id})[p.id := CartLine(p, 1, now)]
  {
  }

  /** A positive quantity is set exactly, on that line only; the line's product is kept. */
  lemma SetQuantityOverwrites(s: Store, id: string, n: int)
    requires n > 0 && id in s
    ensures SetQuantity(s, id, n).Keys == s.Keys
    ensures SetQuantity(s, id, n)[id] == s[id].(quantity := n)
    ensures forall k :: k in s && k != id ==> SetQuantity(s, id, n)[k] == s[k]
  {
  }

  /** A non-positive quantity removes the line; a positive one for a missing line changes nothing. */
  lemma SetQuantityDeletes(s: Store, id: string, n: int)
    ensures n <= 0 ==> SetQuantity(s, id, n) == Remove(s, id)
    ensures n > 0 && id !in s ==> SetQuantity(s, id, n) == s
  {
  }

  /** Repeating updateQuantity is a no-op, and so is setting a line to its current quantity. */
  lemma SetQuantityIdempotent(s: Store, id: string, n: int)
    ensures SetQuantity(SetQuantity(s, id, n), id, n) == SetQuantity(s, id, n)
    ensures id in s && s[id].quantity == n && n > 0 ==> SetQuantity(s, id, n) == s
  {
  }

  /** removeFromCart deletes only that line; removing an absent line is a no-op. */
  lemma RemoveOnlyThatLine(s: Store, id: string)
    ensures Remove(s, id).Keys == s.Keys - {id}
    ensures forall k :: k in Remove(s, id) ==> Remove(s, id)[k] == s[k]
    ensures id !in s ==> Remove(s, id) == s
  {
  }

  /** addToCart's write keeps every document under its product id with a positive quantity. */
  lemma AddWritePreservesWellFormed(s: Store, existing: Option<Doc<CartLine>>, p: Product, now: int)
    requires WellFormed(s)
    requires existing.Some? ==> existing.value.data.quantity >= 1
    ensures WellFormed(AddWrite(s, existing, p, now))
  {
  }

  /** updateQuantity's write keeps the cart well formed: it never stores a quantity below 1. */
  lemma SetQuantityPreservesWellFormed(s: Store, id: string, n: int)
    requires WellFormed(s)
    ensures WellFormed(SetQuantity(s, id, n))
  {
  }

  /** removeFromCart's delete keeps the cart well formed. */
  lemma RemovePreservesWellFormed(s: Store, id: string)
    requires WellFormed(s)
    ensures WellFormed(Remove(s, id))
  {
  }

  /** Adding a product raises the item count by one and the price by that line's unit price. */
  lemma AddedTotals(s: Store, p: Product, now: int)
    ensures MapSum(Added(s, p, now), Quantity) == MapSum(s, Quantity) + 1
    ensures MapSum(Added(s, p, now), LineTotal)
         == MapSum(s, LineTotal) + (if p.id in s then s[p.id].product.price else p.price)
  {
    if p.id in s {
      var l := s[p.id];
      var v := l.(quantity := l.quantity + 1);
      AddMergesLine(s, p, now);
      MapSumUpdate(s, Quantity, p.id, v);
      MapSumUpdate(s, LineTotal, p.id, v);
      UnitMore(l.product.price, l.quantity);
    } else {
      AddCreatesLine(s, p, now);
      MapSumUpdate(s, Quantity, p.id, CartLine(p, 1, now));
      MapSumUpdate(s, LineTotal, p.id, CartLine(p, 1, now));
    }
  }

  lemma UnitMore(price: int, q: int)
    ensures price * (q + 1) == price * q + price
  {
  }

  /** Overwriting a line's quantity changes the item count by the difference; removing a line takes off its share. */
  lemma QuantityChangeTotals(s: Store, id: string, n: int)
    requires id in s
    ensures MapSum(SetQuantity(s, id, n), Quantity)
         == MapSum(s, Quantity) - s[id].quantity + (if n > 0 then n else 0)
    ensures MapSum(Remove(s, id), Quantity) == MapSum(s, Quantity) - s[id].quantity
    ensures MapSum(Remove(s, id), LineTotal) == MapSum(s, LineTotal) - LineTotal(s[id])
  {
    MapSumRemove(s, Quantity, id);
    MapSumRemove(s, LineTotal, id);
    if n > 0 {
      MapSumUpdate(s, Quantity, id, s[id].(quantity := n));
    }
  }

  /** The cart context of one browser session. */
  class CartProvider {
    /** The signed-in user's id, if any. */
    var user: Option<string>
    /** users/{uid}/cart for every user. */
    var remote: map<string, Store>
    /** The mirror (`cartItems`): the last snapshot of the signed-in user's cart. */
    var cart: seq<Doc<CartLine>>

    ghost predicate Valid()
      reads this
    {
      && (forall u :: u in remote ==> WellFormed(remote[u]))
      && MirrorWellFormed(cart)
    }

    /** The cart collection of user `u` (an unknown user has an empty one). */
    function Docs(u: string): Store
      reads this
    {
      if u in remote then remote[u] else map[]
    }

    /** The mirror shows the signed-in user's collection, or nothing when signed out. */
    ghost predicate Synced()
      reads this
    {
      match user
      case None => cart == []
      case Some(u) => Lists(cart, Docs(u))
    }

    constructor (remote0: map<string, Store>)
      requires forall u :: u in remote0 ==> WellFormed(remote0[u])
      ensures Valid() && Synced()
      ensures user == None && remote == remote0 && cart == []
    {
      user := None;
      remote := remote0;
      cart := [];
    }

    /** The effect on a change of user: signing out empties the mirror; signing in subscribes and waits for a snapshot. */
    method SetUser(u: Option<string>)
      requires Valid()
      modifies this`user, this`cart
      ensures Valid() && user == u
      ensures cart == if u.None? then [] else old(cart)
      ensures u.None? ==> Synced()
    {
      user := u;
      if u.None? {
        cart := [];
      }
    }

    /** The snapshot handler: rebuild the mirror from the documents in snapshot order. */
    method OnSnapshot(order: seq<string>)
      requires Valid() && user.Some? && Enumerates(order, Docs(user.value))
      modifies this`cart
      ensures Valid() && Synced()
      ensures cart == Listing(Docs(user.value), order)
    {
      cart := BuildListing(Docs(user.value), order);
    }

    /** addToCart: refused when signed out; otherwise merges into the mirror's line or creates one. */
    method AddToCart(p: Product, now: int)
      requires Valid()
      modifies this`remote
      ensures Valid()
      ensures user.None? ==> remote == old(remote)
      ensures user.Some? ==> remote == old(remote)[user.value := AddWrite(old(Docs(user.value)), Find(cart, p.id), p, now)]
      ensures user.Some? && old(Synced()) ==> Docs(user.value) == Added(old(Docs(user.value)), p, now)
    {
      if user.None? {
        return;
      }
      var u := user.value;
      var existing := Find(cart, p.id);
      if existing.Some? {
        var i :| 0 <= i < |cart| && cart[i] == existing.value;
      }
      AddWritePreservesWellFormed(Docs(u), existing, p, now);
      if Synced() {
        AddWriteSynced(cart, Docs(u), p, now);
      }
      remote := remote[u := AddWrite(Docs(u), existing, p, now)];
    }

    /** removeFromCart: deletes the line of `id`; ignored when signed out. */
    method RemoveFromCart(id: string)
      requires Valid()
      modifies this`remote
      ensures Valid()
      ensures user.None? ==> remote == old(remote)
      ensures user.Some? ==> remote == old(remote)[user.value := Remove(old(Docs(user.value)), id)]
    {
      if user.None? {
        return;
      }
      var u := user.value;
      RemovePreservesWellFormed(Docs(u), id);
      remote := remote[u := Remove(Docs(u), id)];
    }

    /** updateQuantity: a non-positive quantity deletes the line, a positive one overwrites it; ignored when signed out. */
    method UpdateQuantity(id: string, n: int)
      requires Valid()
      modifies this`remote
      ensures Valid()
      ensures user.None? ==> remote == old(remote)
      ensures user.Some? ==> remote == old(remote)[user.value := SetQuantity(old(Docs(user.value)), id, n)]
    {
      if user.None? {
        return;
      }
      var u := user.value;
      SetQuantityPreservesWellFormed(Docs(u), id, n);
      remote := remote[u := SetQuantity(Docs(u), id, n)];
    }

    /** clearCart: deletes every line of the signed-in user's cart; ignored when signed out. */
    method ClearCart()
      requires Valid()
      modifies this`remote
      ensures Valid()
      ensures user.None? ==> remote == old(remote)
      ensures user.Some? ==> remote == old(remote)[user.value := map[]] && Docs(user.value) == map[]
    {
      if user.None? {
        return;
      }
      remote := remote[user.value := map[]];
    }
  }
}
