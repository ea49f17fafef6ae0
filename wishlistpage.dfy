/** The wishlist page: the saved destinations, in catalog order, and the count line above them. */
module WishlistPage {
  import opened Seqs
  import opened Catalog

  /** The catalog records whose id is on the wishlist, in catalog order. */
  function WishlistDestinations(catalog: seq<Destination>, ids: seq<int>): (r: seq<Destination>)
    ensures forall d :: d in r <==> d in catalog && d.id in ids
    ensures IsSubsequence(r, catalog)
  {
    Filter(catalog, OnWishlist(ids))
  }

  function OnWishlist(ids: seq<int>): Destination -> bool {
    (d: Destination) => d.id in ids
  }

  function IdSet(c: seq<Destination>): set<int> {
    set d | d in c :: d.id
  }

  lemma {:induction false} ProjectionSize(catalog: seq<Destination>, ids: seq<int>)
    requires UniqueIds(catalog)
    ensures |WishlistDestinations(catalog, ids)| == |IdSet(catalog) * (set x | x in ids)|
  {
    if catalog != [] {
      var wanted := set x | x in ids;
      var d := catalog[0];
      var tail := catalog[1..];
      UniqueTail(catalog);
      ProjectionSize(tail, ids);
      HeadIdNotInTail(catalog);
      IdSetCons(catalog);
      var rest := Filter(tail, OnWishlist(ids));
      IntersectAddOne(d.id, IdSet(tail), wanted);
      if d.id in ids {
        assert Filter(catalog, OnWishlist(ids)) == [d] + rest;
      } else {
        assert Filter(catalog, OnWishlist(ids)) == rest;
      }
    }
  }

  lemma IntersectAddOne(x: int, a: set<int>, w: set<int>)
    requires x !in a
    ensures x in w ==> |({x} + a) * w| == |a * w| + 1
    ensures x !in w ==> ({x} + a) * w == a * w
  {
    if x in w {
      assert ({x} + a) * w == {x} + a * w;
    }
  }

  lemma UniqueTail(catalog: seq<Destination>)
    requires UniqueIds(catalog) && catalog != []
    ensures UniqueIds(catalog[1..])
  {
    var tail := catalog[1..];
    forall i, j | 0 <= i < j < |tail| ensures tail[i].id != tail[j].id {
      assert tail[i] == catalog[i + 1] && tail[j] == catalog[j + 1];
    }
  }

  lemma HeadIdNotInTail(catalog: seq<Destination>)
    requires UniqueIds(catalog) && catalog != []
    ensures catalog[0].id !in IdSet(catalog[1..])
  {
    var tail := catalog[1..];
    forall e | e in tail ensures e.id != catalog[0].id {
      var k :| 0 <= k < |tail| && tail[k] == e;
      assert catalog[k + 1] == e;
    }
  }

  lemma IdSetCons(catalog: seq<Destination>)
    requires catalog != []
    ensures IdSet(catalog) == {catalog[0].id} + IdSet(catalog[1..])
  {
    assert catalog == [catalog[0]] + catalog[1..];
  }

  /** Ids with no catalog record are dropped, so the page never shows more than the wishlist holds. */
  lemma ShownAtMostWishlisted(catalog: seq<Destination>, ids: seq<int>)
    requires UniqueIds(catalog)
    ensures |WishlistDestinations(catalog, ids)| <= |ids|
  {
    ProjectionSize(catalog, ids);
    CardElementsAtMostLength(ids);
    var wanted := set x | x in ids;
    assert IdSet(catalog) * wanted <= wanted;
    SubsetCard(IdSet(catalog) * wanted, wanted);
  }

  lemma SubsetCard(a: set<int>, b: set<int>)
    requires a <= b
    ensures |a| <= |b|
  {
    assert b == a + (b - a);
  }

  /** The unit word of the "N destinations saved" line. */
  function CountLabel(n: nat): (word: string)
    ensures word == "destination" <==> n == 1
    ensures n != 1 ==> word == "destinations"
  {
    if n == 1 then "destination" else "destinations"
  }

  /** The empty-state card is shown exactly when no wishlisted id has a catalog record. */
  lemma EmptyStateIffNoKnownId(catalog: seq<Destination>, ids: seq<int>)
    ensures WishlistDestinations(catalog, ids) == [] <==> forall d :: d in catalog ==> d.id !in ids
  {
    var r := WishlistDestinations(catalog, ids);
    if r != [] {
      assert r[0] in r;
    }
  }
}
