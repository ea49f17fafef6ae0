/**
 * The wishlist store: the ids of the destinations the visitor saved, kept in insertion
 * order and, from a duplicate-free start, free of duplicates.
 */
module Wishlist {
  import opened Wrappers
  import opened Seqs

  /** `addToWishlist` on the list: unchanged when present, otherwise appended. */
  function AddId(ids: seq<int>, id: int): (r: seq<int>)
    ensures id in r
    ensures forall x :: x in r <==> x in ids || x == id
    ensures id in ids ==> r == ids
    ensures id !in ids ==> |r| == |ids| + 1 && r[..|ids|] == ids && r[|ids|] == id
    ensures NoDup(ids) ==> NoDup(r)
  {
    if id in ids then ids else ids + [id]
  }

  /** `removeFromWishlist` on the list: every occurrence goes, the rest keep their order. */
  function RemoveId(ids: seq<int>, id: int): (r: seq<int>)
    ensures id !in r
    ensures forall x :: x != id ==> (x in r <==> x in ids)
    ensures forall x :: x != id ==> multiset(r)[x] == multiset(ids)[x]
    ensures IsSubsequence(r, ids)
    ensures NoDup(ids) ==> NoDup(r)
  {
    assert NoDup(ids) ==> NoDup(Filter(ids, x => x != id)) by {
      if NoDup(ids) { FilterNoDup(ids, x => x != id); }
    }
    Filter(ids, x => x != id)
  }

  /** `toggleWishlist` on the list. */
  function ToggleId(ids: seq<int>, id: int): (r: seq<int>)
    ensures id in r <==> id !in ids
    ensures forall x :: x != id ==> (x in r <==> x in ids)
    ensures NoDup(ids) ==> NoDup(r)
  {
    if id in ids then RemoveId(ids, id) else AddId(ids, id)
  }

  /** Adding twice is adding once. */
  lemma AddIdempotent(ids: seq<int>, id: int)
    ensures AddId(AddId(ids, id), id) == AddId(ids, id)
  {
  }

  /** Removing an id that was just added to a list without it gives the list back. */
  lemma {:induction false} RemoveUndoesAdd(ids: seq<int>, id: int)
    requires id !in ids
    ensures RemoveId(AddId(ids, id), id) == ids
  {
    FilterDropsAppended(ids, id, x => x != id);
  }

  /** Toggling an id that is absent twice gives the list back. */
  lemma ToggleTwiceAbsent(ids: seq<int>, id: int)
    requires id !in ids
    ensures ToggleId(ToggleId(ids, id), id) == ids
  {
    RemoveUndoesAdd(ids, id);
  }

  class WishlistStore {
    var ids: seq<int>

    /** The list read back from storage; a missing or unreadable entry gives an empty list. */
    constructor(stored: Option<seq<int>>)
      ensures ids == stored.GetOr([])
    {
      ids := stored.GetOr([]);
    }

    method Add(id: int)
      modifies this
      ensures ids == AddId(old(ids), id)
    {
      if id !in ids {
        ids := ids + [id];
      }
    }

    method Remove(id: int)
      modifies this
      ensures ids == RemoveId(old(ids), id)
    {
      ids := RemoveId(ids, id);
    }

    function IsIn(id: int): (b: bool)
      reads this
      ensures b <==> exists k :: 0 <= k < |ids| && ids[k] == id
    {
      id in ids
    }

    method Toggle(id: int)
      modifies this
      ensures ids == ToggleId(old(ids), id)
      ensures IsIn(id) <==> !old(IsIn(id))
    {
      if IsIn(id) {
        Remove(id);
      } else {
        Add(id);
      }
    }

    /** `wishlistCount`: the length of the stored list, which is the number of distinct ids when none repeats. */
    function Count(): (n: nat)
      reads this
      ensures n == |ids|
      ensures NoDup(ids) ==> n == |set x | x in ids|
    {
      assert NoDup(ids) ==> |set x | x in ids| == |ids| by {
        if NoDup(ids) { NoDupCard(ids); }
      }
      |ids|
    }
  }
}
