/**
 * The favorites context: a signed-in user's favorites are a remote collection keyed by
 * product id, mirrored by the context; adding is an upsert, removing a delete, and
 * toggling chooses between them from the mirror.
 */
module Favorites {
  import opened Wrappers
  import opened Collection
  import Cart

  /** The fields of a favorite document: the product's fields and the time it was added. */
  datatype Favorite = Favorite(product: Cart.Product, addedAt: int)

  /** One user's favorites collection, keyed by product id. */
  type Store = map<string, Favorite>

  /** Every favorite is stored under its product's id, as addToFavorites stores it. */
  predicate WellFormed(s: Store)
  {
    forall k :: k in s ==> s[k].product.id == k
  }

  /**
   * Every mirror entry's id is its product's id. The mirror entry is `{id: doc.id, ...doc.data()}`,
   * whose `id` is the product's; on a well-formed store the two agree.
   */
  predicate MirrorWellFormed(items: seq<Doc<Favorite>>)
  {
    forall i :: 0 <= i < |items| ==> items[i].data.product.id == items[i].id
  }

  /** addToFavorites' write: an upsert under the product's id. */
  function Upsert(s: Store, p: Cart.Product, now: int): Store
  {
    s[p.id := Favorite(p, now)]
  }

  /** removeFromFavorites' write. */
  function Delete(s: Store, id: string): Store
  {
    s - {id}
  }

  /** isFavorite: some entry of the mirror has the id. */
  predicate IsFavorite(items: seq<Doc<Favorite>>, id: string)
  {
    Has(items, id)
  }

  /** toggleFavorite's write, deciding from the mirror. */
  function ToggleWrite(s: Store, items: seq<Doc<Favorite>>, p: Cart.Product, now: int): Store
  {
    if IsFavorite(items, p.id) then Delete(s, p.id) else Upsert(s, p, now)
  }

  /** toggleFavorite when the mirror is up to date. */
  function Toggled(s: Store, p: Cart.Product, now: int): Store
  {
    if p.id in s then Delete(s, p.id) else Upsert(s, p, now)
  }

  /** On an up-to-date mirror isFavorite is membership in the collection, and toggling writes what Toggled describes. */
  lemma IsFavoriteListed(items: seq<Doc<Favorite>>, s: Store, p: Cart.Product, now: int)
    requires Lists(items, s)
    ensures IsFavorite(items, p.id) <==> p.id in s
    ensures ToggleWrite(s, items, p, now) == Toggled(s, p, now)
  {
    FindListed(items, s, p.id);
  }

  /** Adding twice leaves one entry under the id; the other entries are untouched. */
  lemma UpsertIdempotent(s: Store, p: Cart.Product, t1: int, t2: int)
    ensures Upsert(Upsert(s, p, t1), p, t2) == Upsert(s, p, t2)
    ensures Upsert(s, p, t1).Keys == s.Keys + {p.id}
    ensures forall k :: k in s && k != p.id ==> Upsert(s, p, t1)[k] == s[k]
  {
  }

  /** Removing deletes only that entry; an absent id is a no-op. */
  lemma DeleteOnlyThatEntry(s: Store, id: string)
    ensures Delete(s, id).Keys == s.Keys - {id}
    ensures forall k :: k in Delete(s, id) ==> Delete(s, id)[k] == s[k]
    ensures id !in s ==> Delete(s, id) == s
  {
  }

  /** addToFavorites' upsert keeps every favorite under its product's id. */
  lemma UpsertPreservesWellFormed(s: Store, p: Cart.Product, now: int)
    requires WellFormed(s)
    ensures WellFormed(Upsert(s, p, now))
  {
  }

  /** removeFromFavorites' delete keeps every favorite under its product's id. */
  lemma DeletePreservesWellFormed(s: Store, id: string)
    requires WellFormed(s)
    ensures WellFormed(Delete(s, id))
  {
  }

  /** A snapshot of a well-formed store is a well-formed mirror. */
  lemma ListingWellFormed(s: Store, order: seq<string>)
    requires WellFormed(s)
    requires forall i :: 0 <= i < |order| ==> order[i] in s
    ensures MirrorWellFormed(Listing(s, order))
  {
  }

  /** Toggling flips membership of the product and leaves every other entry as it was. */
  lemma ToggleFlips(s: Store, p: Cart.Product, now: int)
    ensures p.id in Toggled(s, p, now) <==> p.id !in s
    ensures forall k :: k != p.id ==> (k in Toggled(s, p, now) <==> k in s)
    ensures forall k :: k != p.id && k in s ==> Toggled(s, p, now)[k] == s[k]
  {
  }

  /** Toggling twice restores the product's membership and every other entry. */
  lemma ToggleTwice(s: Store, p: Cart.Product, t1: int, t2: int)
    ensures var r := Toggled(Toggled(s, p, t1), p, t2);
      && (p.id in r <==> p.id in s)
      && r - {p.id} == s - {p.id}
      && (p.id !in s ==> r == s)
  {
    var once := Toggled(s, p, t1);
    var r := Toggled(once, p, t2);
    if p.id in s {
      assert once == s - {p.id};
      assert r == once[p.id := Favorite(p, t2)];
      assert r - {p.id} == s - {p.id};
    } else {
      assert once == s[p.id := Favorite(p, t1)];
      assert r == s;
    }
  }

  /** The favorites context of one browser session. */
  class FavoritesProvider {
    var user: Option<string>
    /** users/{uid}/favorites for every user. */
    var remote: map<string, Store>
    /** The mirror (`favorites`): the last snapshot of the signed-in user's favorites. */
    var favorites: seq<Doc<Favorite>>

    function Docs(u: string): Store
      reads this
    {
      if u in remote then remote[u] else map[]
    }

    /** Every user's favorites and the mirror keep each entry under its product's id. */
    ghost predicate Valid()
      reads this
    {
      && (forall u :: u in remote ==> WellFormed(remote[u]))
      && MirrorWellFormed(favorites)
    }

    ghost predicate Synced()
      reads this
    {
      match user
      case None => favorites == []
      case Some(u) => Lists(favorites, Docs(u))
    }

    constructor (remote0: map<string, Store>)
      requires forall u :: u in remote0 ==> WellFormed(remote0[u])
      ensures Valid() && Synced() && user == None && remote == remote0 && favorites == []
    {
      user := None;
      remote := remote0;
      favorites := [];
    }

    /** The effect on a change of user: signing out empties the mirror. */
    method SetUser(u: Option<string>)
      requires Valid()
      modifies this`user, this`favorites
      ensures Valid() && user == u
      ensures favorites == if u.None? then [] else old(favorites)
      ensures u.None? ==> Synced()
    {
      user := u;
      if u.None? {
        favorites := [];
      }
    }

    /** The snapshot handler. */
    method OnSnapshot(order: seq<string>)
      requires Valid() && user.Some? && Enumerates(order, Docs(user.value))
      modifies this`favorites
      ensures Valid() && Synced()
      ensures favorites == Listing(Docs(user.value), order)
    {
      ListingWellFormed(Docs(user.value), order);
      favorites := BuildListing(Docs(user.value), order);
    }

    /** addToFavorites: refused when signed out; otherwise an upsert. */
    method AddToFavorites(p: Cart.Product, now: int)
      requires Valid()
      modifies this`remote
      ensures Valid()
      ensures user.None? ==> remote == old(remote)
      ensures user.Some? ==> remote == old(remote)[user.value := Upsert(old(Docs(user.value)), p, now)]
    {
      if user.None? {
        return;
      }
      UpsertPreservesWellFormed(Docs(user.value), p, now);
      remote := remote[user.value := Upsert(Docs(user.value), p, now)];
    }

    /** removeFromFavorites: ignored when signed out; otherwise a delete. */
    method RemoveFromFavorites(id: string)
      requires Valid()
      modifies this`remote
      ensures Valid()
      ensures user.None? ==> remote == old(remote)
      ensures user.Some? ==> remote == old(remote)[user.value := Delete(old(Docs(user.value)), id)]
    {
      if user.None? {
        return;
      }
      DeletePreservesWellFormed(Docs(user.value), id);
      remote := remote[user.value := Delete(Docs(user.value), id)];
    }

    /** toggleFavorite: remove when the mirror has the product, add otherwise. */
    method ToggleFavorite(p: Cart.Product, now: int)
      requires Valid()
      modifies this`remote
      ensures Valid()
      ensures user.None? ==> remote == old(remote)
      ensures user.Some? ==> remote == old(remote)[user.value := ToggleWrite(old(Docs(user.value)), favorites, p, now)]
      ensures user.Some? && old(Synced()) ==> Docs(user.value) == Toggled(old(Docs(user.value)), p, now)
    {
      if user.Some? && Synced() {
        IsFavoriteListed(favorites, Docs(user.value), p, now);
      }
      if IsFavorite(favorites, p.id) {
        RemoveFromFavorites(p.id);
      } else {
        AddToFavorites(p, now);
      }
    }
  }
}
