/**
 * A per-user remote document collection (the cart and favorites sub-collections of a user)
 * and the in-memory mirror a context keeps of it. The collection is a map from document
 * id to fields; a snapshot delivers its documents once each, in some order, and the
 * context rebuilds its list from them.
 */
module Collection {
  import opened Wrappers

  /** One entry of a mirror: the document id and its fields. */
  datatype Doc<T> = Doc(id: string, data: T)

  /** `order` names every document of `m` exactly once: the order of a snapshot. */
  predicate Enumerates<T>(order: seq<string>, m: map<string, T>)
  {
    && (forall i, j :: 0 <= i < j < |order| ==> order[i] != order[j])
    && (forall i :: 0 <= i < |order| ==> order[i] in m)
    && (forall k :: k in m ==> k in order)
  }

  /** The list a snapshot handler builds: one entry per document, in snapshot order. */
  function Listing<T>(m: map<string, T>, order: seq<string>): (items: seq<Doc<T>>)
    requires forall i :: 0 <= i < |order| ==> order[i] in m
    ensures |items| == |order|
    ensures forall i :: 0 <= i < |order| ==> items[i] == Doc(order[i], m[order[i]])
  {
    if order == [] then [] else [Doc(order[0], m[order[0]])] + Listing(m, order[1..])
  }

  /** `items` is a faithful mirror of `m`: each document exactly once, with its current fields. */
  ghost predicate Lists<T>(items: seq<Doc<T>>, m: map<string, T>)
  {
    && (forall i, j :: 0 <= i < j < |items| ==> items[i].id != items[j].id)
    && (forall i :: 0 <= i < |items| ==> items[i].id in m && m[items[i].id] == items[i].data)
    && (forall k :: k in m ==> exists i :: 0 <= i < |items| && items[i].id == k)
  }

  /** Some entry of the mirror has id `id` (the `some` test of the contexts). */
  predicate Has<T>(items: seq<Doc<T>>, id: string)
  {
    exists i :: 0 <= i < |items| && items[i].id == id
  }

  /** The first entry with id `id` (the `find` of the contexts). */
  function Find<T>(items: seq<Doc<T>>, id: string): (r: Option<Doc<T>>)
    ensures r.Some? <==> Has(items, id)
    ensures r.Some? ==> r.value.id == id && r.value in items
    ensures r.Some? ==> exists i :: 0 <= i < |items| && items[i] == r.value
                                  && forall j :: 0 <= j < i ==> items[j].id != id
  {
    if items == [] then None
    else if items[0].id == id then Some(items[0])
    else Find(items[1..], id)
  }

  /** The sum of `f` over the fields of the mirror's entries (a `reduce` from 0). */
  function SumOf<T>(items: seq<Doc<T>>, f: T -> int): int
  {
    if items == [] then 0 else f(items[0].data) + SumOf(items[1..], f)
  }

  /** The sum of `f` over the documents of a collection, independent of any order. */
  ghost function MapSum<T>(m: map<string, T>, f: T -> int): int
    decreases |m|
  {
    if m == map[] then 0
    else
      var k :| k in m;
      assert |m - {k}| == |m| - 1 by { assert (m - {k}).Keys == m.Keys - {k}; }
      f(m[k]) + MapSum(m - {k}, f)
  }

  /** The snapshot handler's push loop: rebuild the mirror from a snapshot of `m`. */
  method BuildListing<T>(m: map<string, T>, order: seq<string>) returns (items: seq<Doc<T>>)
    requires Enumerates(order, m)
    ensures items == Listing(m, order)
    ensures Lists(items, m)
  {
    items := [];
    var i := 0;
    while i < |order|
      invariant 0 <= i <= |order|
      invariant |items| == i
      invariant forall j :: 0 <= j < i ==> items[j] == Doc(order[j], m[order[j]])
    {
      items := items + [Doc(order[i], m[order[i]])];
      i := i + 1;
    }
    ListingLists(m, order);
  }

  lemma ListingLists<T>(m: map<string, T>, order: seq<string>)
    requires Enumerates(order, m)
    ensures Lists(Listing(m, order), m)
  {
    var items := Listing(m, order);
    forall k | k in m ensures exists i :: 0 <= i < |items| && items[i].id == k {
      var i :| 0 <= i < |order| && order[i] == k;
      assert items[i].id == k;
    }
  }

  /** Looking a document up in a faithful mirror is looking it up in the collection. */
  lemma FindListed<T>(items: seq<Doc<T>>, m: map<string, T>, id: string)
    requires Lists(items, m)
    ensures Has(items, id) <==> id in m
    ensures Find(items, id) == if id in m then Some(Doc(id, m[id])) else None
  {
    if id in m {
      var i :| 0 <= i < |items| && items[i].id == id;
      assert Has(items, id);
    }
    var r := Find(items, id);
    if r.Some? {
      var i :| 0 <= i < |items| && items[i] == r.value;
    }
  }

  /** Removing any one document from a collection takes exactly its share off the sum. */
  lemma {:induction false} MapSumPick<T>(m: map<string, T>, f: T -> int, k: string)
    requires k in m
    ensures MapSum(m, f) == f(m[k]) + MapSum(m - {k}, f)
    decreases |m|
  {
    var j :| j in m && MapSum(m, f) == f(m[j]) + MapSum(m - {j}, f);
    if j != k {
      assert |m - {j}| == |m| - 1 by { assert (m - {j}).Keys == m.Keys - {j}; }
      assert |m - {k}| == |m| - 1 by { assert (m - {k}).Keys == m.Keys - {k}; }
      MapSumPick(m - {j}, f, k);
      MapSumPick(m - {k}, f, j);
      assert m - {j} - {k} == m - {k} - {j};
    }
  }

  /** Overwriting (or creating) one document changes the sum by exactly that document's change. */
  lemma MapSumUpdate<T>(m: map<string, T>, f: T -> int, k: string, v: T)
    ensures MapSum(m[k := v], f) == MapSum(m, f) + f(v) - (if k in m then f(m[k]) else 0)
  {
    MapSumPick(m[k := v], f, k);
    assert m[k := v] - {k} == m - {k};
    if k in m {
      MapSumPick(m, f, k);
    } else {
      assert m - {k} == m;
    }
  }

  /** Deleting one document takes its share off the sum; deleting an absent one changes nothing. */
  lemma MapSumRemove<T>(m: map<string, T>, f: T -> int, k: string)
    ensures MapSum(m - {k}, f) == MapSum(m, f) - (if k in m then f(m[k]) else 0)
  {
    if k in m {
      MapSumPick(m, f, k);
    } else {
      assert m - {k} == m;
    }
  }

  /** Summing over any faithful mirror gives the sum over the collection: the order of a snapshot does not matter. */
  lemma {:induction false} ListedSum<T>(items: seq<Doc<T>>, m: map<string, T>, f: T -> int)
    requires Lists(items, m)
    ensures SumOf(items, f) == MapSum(m, f)
    decreases |items|
  {
    if items == [] {
      assert forall k :: k !in m;
      assert m == map[];
    } else {
      var d := items[0];
      var rest := items[1..];
      var m' := m - {d.id};
      forall i | 0 <= i < |rest| ensures rest[i].id in m' && m'[rest[i].id] == rest[i].data {
        assert rest[i] == items[i + 1];
      }
      forall k | k in m' ensures exists i :: 0 <= i < |rest| && rest[i].id == k {
        var i :| 0 <= i < |items| && items[i].id == k;
        assert i != 0;
        assert rest[i - 1].id == k;
      }
      assert Lists(rest, m');
      ListedSum(rest, m', f);
      MapSumPick(m, f, d.id);
    }
  }
}
