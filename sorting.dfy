/** Stable sorting by a comparison, as `Array.prototype.sort` with a comparator and as the store's
    `order(...)`: elements the comparison does not separate keep their relative order. */
module Sorting {
  import opened Seqs

  /** `before` is a strict weak order: asymmetric, and whenever `a` comes before `c`,
      every `b` comes after `a` or before `c`. */
  ghost predicate StrictWeakOrder<T(!new)>(before: (T, T) -> bool)
  {
    && (forall a, b :: before(a, b) ==> !before(b, a))
    && (forall a, b, c :: before(a, c) ==> before(a, b) || before(b, c))
  }

  /** No element of `s` comes before an element to its left. */
  predicate SortedBy<T>(s: seq<T>, before: (T, T) -> bool)
  {
    forall i, j :: 0 <= i < j < |s| ==> !before(s[j], s[i])
  }

  /** Neither of `y` and `e` comes before the other. */
  predicate Tied<T>(before: (T, T) -> bool, y: T, e: T)
  {
    !before(y, e) && !before(e, y)
  }

  function TiedWith<T>(before: (T, T) -> bool, e: T): T -> bool
  {
    y => Tied(before, y, e)
  }

  /** Inserts `x` after the sorted `s`, then moves it left past every element it comes before. */
  function InsertBy<T>(s: seq<T>, x: T, before: (T, T) -> bool): (r: seq<T>)
    ensures |r| == |s| + 1
  {
    if |s| == 0 || !before(x, s[|s| - 1]) then s + [x]
    else
      InsertBy(s[..|s| - 1], x, before) + [s[|s| - 1]]
  }

  /** Insertion sort from left to right: the stable sort of `s` by `before`. */
  function SortBy<T>(s: seq<T>, before: (T, T) -> bool): (r: seq<T>)
    ensures |r| == |s|
  {
    if |s| == 0 then []
    else
      InsertBy(SortBy(s[..|s| - 1], before), s[|s| - 1], before)
  }

  lemma {:induction false} InsertByPermutation<T>(s: seq<T>, x: T, before: (T, T) -> bool)
    ensures multiset(InsertBy(s, x, before)) == multiset(s) + multiset{x}
  {
    if |s| > 0 && before(x, s[|s| - 1]) {
      assert s == s[..|s| - 1] + [s[|s| - 1]];
      InsertByPermutation(s[..|s| - 1], x, before);
    }
  }

  /** The stable sort of `s` is a permutation of `s`. */
  lemma {:induction false} SortByPermutation<T>(s: seq<T>, before: (T, T) -> bool)
    ensures multiset(SortBy(s, before)) == multiset(s)
  {
    if |s| > 0 {
      assert s == s[..|s| - 1] + [s[|s| - 1]];
      SortByPermutation(s[..|s| - 1], before);
      InsertByPermutation(SortBy(s[..|s| - 1], before), s[|s| - 1], before);
    }
  }

  lemma {:induction false} InsertBySorted<T(!new)>(s: seq<T>, x: T, before: (T, T) -> bool)
    requires StrictWeakOrder(before) && SortedBy(s, before)
    ensures SortedBy(InsertBy(s, x, before), before)
  {
    if |s| == 0 || !before(x, s[|s| - 1]) {
      forall i | 0 <= i < |s|
        ensures !before(x, s[i])
      {
        if i < |s| - 1 {
          assert !before(s[|s| - 1], s[i]);
        }
      }
    } else {
      var front, last := s[..|s| - 1], s[|s| - 1];
      InsertBySorted(front, x, before);
      var r' := InsertBy(front, x, before);
      InsertByPermutation(front, x, before);
      forall i | 0 <= i < |r'|
        ensures !before(last, r'[i])
      {
        assert r'[i] in multiset(r');
        if r'[i] != x {
          assert r'[i] in multiset(front);
          var k :| 0 <= k < |front| && front[k] == r'[i];
        }
      }
    }
  }

  /** The stable sort of `s` is sorted. */
  lemma {:induction false} SortBySorted<T(!new)>(s: seq<T>, before: (T, T) -> bool)
    requires StrictWeakOrder(before)
    ensures SortedBy(SortBy(s, before), before)
  {
    if |s| > 0 {
      SortBySorted(s[..|s| - 1], before);
      InsertBySorted(SortBy(s[..|s| - 1], before), s[|s| - 1], before);
    }
  }

  lemma FilterSingleton<T>(x: T, p: T -> bool)
    ensures Filter([x], p) == if p(x) then [x] else []
  {
    assert [x][1..] == [];
  }

  lemma {:induction false} InsertByStable<T(!new)>(s: seq<T>, x: T, before: (T, T) -> bool, e: T)
    requires StrictWeakOrder(before)
    ensures Filter(InsertBy(s, x, before), TiedWith(before, e))
         == Filter(s, TiedWith(before, e)) + (if Tied(before, x, e) then [x] else [])
  {
    var p := TiedWith(before, e);
    FilterSingleton(x, p);
    if |s| == 0 || !before(x, s[|s| - 1]) {
      FilterAppend(s, [x], p);
    } else {
      var front, last := s[..|s| - 1], s[|s| - 1];
      assert s == front + [last];
      InsertByStable(front, x, before, e);
      FilterAppend(InsertBy(front, x, before), [last], p);
      FilterAppend(front, [last], p);
      FilterSingleton(last, p);
      // x comes before last, so they cannot both be tied with e
      assert !(Tied(before, x, e) && Tied(before, last, e));
    }
  }

  /** Stability: the elements tied with any `e` appear in the sorted sequence in their original order. */
  lemma {:induction false} SortByStable<T(!new)>(s: seq<T>, before: (T, T) -> bool, e: T)
    requires StrictWeakOrder(before)
    ensures Filter(SortBy(s, before), TiedWith(before, e)) == Filter(s, TiedWith(before, e))
  {
    if |s| > 0 {
      var front, last := s[..|s| - 1], s[|s| - 1];
      assert s == front + [last];
      SortByStable(front, before, e);
      InsertByStable(SortBy(front, before), last, before, e);
      FilterAppend(front, [last], TiedWith(before, e));
      FilterSingleton(last, TiedWith(before, e));
    }
  }

  lemma SortByStep<T>(s: seq<T>, i: nat, before: (T, T) -> bool)
    requires i < |s|
    ensures SortBy(s[..i + 1], before) == InsertBy(SortBy(s[..i], before), s[i], before)
  {
    assert s[..i + 1][..i] == s[..i];
  }

  /** One swap of the insertion: `y` moves right past `x` when `x` comes before it. */
  lemma InsertBySwap<T>(pre: seq<T>, y: T, x: T, before: (T, T) -> bool)
    requires before(x, y)
    ensures InsertBy(pre + [y], x, before) == InsertBy(pre, x, before) + [y]
  {
    assert (pre + [y])[..|pre|] == pre;
  }

  /** Moves `a[i]` left by adjacent swaps past every element it comes before. */
  method InsertInPlace<T>(a: array<T>, i: nat, before: (T, T) -> bool)
    requires i < a.Length
    modifies a
    ensures a[..i + 1] == InsertBy(old(a[..i]), old(a[i]), before)
    ensures a[i + 1..] == old(a[i + 1..])
  {
    ghost var x := a[i];
    ghost var goal := InsertBy(a[..i], x, before);
    ghost var tail := a[i + 1..];
    var j := i;
    while j > 0 && before(a[j], a[j - 1])
      invariant 0 <= j <= i
      invariant a[j] == x
      invariant InsertBy(a[..j], x, before) + a[j + 1..i + 1] == goal
      invariant a[i + 1..] == tail
    {
      ghost var pre, y, rest := a[..j - 1], a[j - 1], a[j + 1..i + 1];
      assert a[..j] == pre + [y];
      InsertBySwap(pre, y, x, before);
      a[j - 1], a[j] := a[j], a[j - 1];
      assert a[..j - 1] == pre;
      assert a[j..i + 1] == [y] + rest;
      j := j - 1;
    }
    assert a[..i + 1] == a[..j] + [x] + a[j + 1..i + 1];
  }

  /** In-place insertion sort; the result is the stable sort of the old contents. */
  method SortInPlace<T>(a: array<T>, before: (T, T) -> bool)
    modifies a
    ensures a[..] == SortBy(old(a[..]), before)
  {
    ghost var s := a[..];
    var i := 0;
    while i < a.Length
      invariant 0 <= i <= a.Length
      invariant a[..i] == SortBy(s[..i], before)
      invariant a[i..] == s[i..]
    {
      SortByStep(s, i, before);
      InsertInPlace(a, i, before);
      assert a[i + 1..] == s[i + 1..];
      i := i + 1;
    }
    assert a[..] == a[..a.Length];
    assert s == s[..a.Length];
  }
}
