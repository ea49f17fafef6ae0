/**
 * The stable sort behind `Array.prototype.sort` with a consistent comparator.
 * `le(a, b)` means "the comparator does not put `b` strictly before `a`" (compare(a, b) <= 0).
 * Since ES2019 the sort is stable, so for a total preorder its result is unique; an insertion
 * sort computes it.
 */
module Sorting {

  /** `le` is total and transitive, as a consistent comparator is. */
  ghost predicate TotalPreorder<T(!new)>(le: (T, T) -> bool) {
    && (forall a, b :: le(a, b) || le(b, a))
    && (forall a, b, c :: le(a, b) && le(b, c) ==> le(a, c))
  }

  /** Every element may precede every later one. */
  ghost predicate Sorted<T>(s: seq<T>, le: (T, T) -> bool) {
    forall i, j :: 0 <= i < j < |s| ==> le(s[i], s[j])
  }

  /** Puts `x` just before the first element it may precede. */
  function Insert<T(==)>(x: T, s: seq<T>, le: (T, T) -> bool): (r: seq<T>)
    ensures multiset(r) == multiset(s) + multiset{x}
  {
    if s == [] || le(x, s[0]) then [x] + s
    else
      assert s == [s[0]] + s[1..];
      [s[0]] + Insert(x, s[1..], le)
  }

  /** The stably sorted copy of `s`. */
  function Sort<T(==)>(s: seq<T>, le: (T, T) -> bool): (r: seq<T>)
    ensures multiset(r) == multiset(s)
    ensures |r| == |s|
  {
    if s == [] then []
    else
      assert s == [s[0]] + s[1..];
      Insert(s[0], Sort(s[1..], le), le)
  }

  /** The elements of `s` that the order cannot tell apart from `x0`, in their order in `s`. */
  function Equivalents<T>(s: seq<T>, le: (T, T) -> bool, x0: T): (r: seq<T>)
    ensures |r| <= |s|
  {
    if s == [] then []
    else (if le(s[0], x0) && le(x0, s[0]) then [s[0]] else []) + Equivalents(s[1..], le, x0)
  }

  lemma {:induction false} InsertSorted<T(!new)>(x: T, s: seq<T>, le: (T, T) -> bool)
    requires TotalPreorder(le) && Sorted(s, le)
    ensures Sorted(Insert(x, s, le), le)
  {
    if s != [] && !le(x, s[0]) {
      var tail := Insert(x, s[1..], le);
      InsertSorted(x, s[1..], le);
      assert le(s[0], x);
      forall y | y in tail
        ensures le(s[0], y)
      {
        assert y in multiset(tail);
        if y != x {
          assert y in s[1..];
        }
      }
      var r := [s[0]] + tail;
      forall i, j | 0 <= i < j < |r|
        ensures le(r[i], r[j])
      {
        if i > 0 {
          assert r[i] == tail[i - 1] && r[j] == tail[j - 1];
        } else {
          assert r[j] in tail;
        }
      }
    }
  }

  /** The sorted copy is ordered by `le`. */
  lemma {:induction false} SortSorted<T(!new)>(s: seq<T>, le: (T, T) -> bool)
    requires TotalPreorder(le)
    ensures Sorted(Sort(s, le), le)
  {
    if s != [] {
      SortSorted(s[1..], le);
      InsertSorted(s[0], Sort(s[1..], le), le);
    }
  }

  lemma {:induction false} EquivalentsAppend<T>(a: seq<T>, b: seq<T>, le: (T, T) -> bool, x0: T)
    ensures Equivalents(a + b, le, x0) == Equivalents(a, le, x0) + Equivalents(b, le, x0)
  {
    if a != [] {
      assert (a + b)[1..] == a[1..] + b;
      EquivalentsAppend(a[1..], b, le, x0);
    } else {
      assert a + b == b;
    }
  }

  lemma {:induction false} InsertStable<T(!new)>(x: T, s: seq<T>, le: (T, T) -> bool, x0: T)
    requires TotalPreorder(le)
    ensures Equivalents(Insert(x, s, le), le, x0)
         == (if le(x, x0) && le(x0, x) then [x] else []) + Equivalents(s, le, x0)
  {
    if s == [] || le(x, s[0]) {
      EquivalentsAppend([x], s, le, x0);
    } else {
      InsertStable(x, s[1..], le, x0);
      EquivalentsAppend([s[0]], Insert(x, s[1..], le), le, x0);
      EquivalentsAppend([s[0]], s[1..], le, x0);
      assert [s[0]] + s[1..] == s;
    }
  }

  /** Stability: within every class of equivalent elements the input order is kept. */
  lemma {:induction false} SortStable<T(!new)>(s: seq<T>, le: (T, T) -> bool, x0: T)
    requires TotalPreorder(le)
    ensures Equivalents(Sort(s, le), le, x0) == Equivalents(s, le, x0)
  {
    if s != [] {
      SortStable(s[1..], le, x0);
      InsertStable(s[0], Sort(s[1..], le), le, x0);
    }
  }
}
