/**
 * Sorting sections by `order` with the comparator `(a, b) => a.order - b.order`.
 * `Array.prototype.sort` is stable, so the specification is the stable
 * insertion sort `SortByOrder`; `SortInPlace` sorts an array in place the way
 * the route's `sections.sort(...)` does and is proved equal to it.
 */
module SectionSort {
  import opened Menu

  predicate SortedByOrder(s: seq<Section>) {
    forall i, j :: 0 <= i < j < |s| ==> s[i].order <= s[j].order
  }

  /** Inserts x into a list after the trailing elements whose order does not exceed x's. */
  function InsertByOrder(x: Section, s: seq<Section>): seq<Section>
    decreases |s|
  {
    if s == [] || s[|s| - 1].order <= x.order then s + [x]
    else InsertByOrder(x, s[..|s| - 1]) + [s[|s| - 1]]
  }

  /** The stable sort of s by ascending order. */
  function SortByOrder(s: seq<Section>): seq<Section>
    decreases |s|
  {
    if s == [] then [] else InsertByOrder(s[|s| - 1], SortByOrder(s[..|s| - 1]))
  }

  /** The elements of s whose order is k, in their order in s. */
  function WithOrder(s: seq<Section>, k: int): seq<Section>
    decreases |s|
  {
    if s == [] then []
    else WithOrder(s[..|s| - 1], k) + (if s[|s| - 1].order == k then [s[|s| - 1]] else [])
  }

  lemma {:induction false} InsertPermutation(x: Section, s: seq<Section>)
    ensures multiset(InsertByOrder(x, s)) == multiset(s) + multiset{x}
    ensures |InsertByOrder(x, s)| == |s| + 1
    decreases |s|
  {
    if s != [] && s[|s| - 1].order > x.order {
      var s' := s[..|s| - 1];
      InsertPermutation(x, s');
      assert s == s' + [s[|s| - 1]];
    }
  }

  lemma {:induction false} InsertSorted(x: Section, s: seq<Section>)
    requires SortedByOrder(s)
    ensures SortedByOrder(InsertByOrder(x, s))
    decreases |s|
  {
    if s != [] && s[|s| - 1].order > x.order {
      var last := s[|s| - 1];
      var s' := s[..|s| - 1];
      InsertSorted(x, s');
      InsertPermutation(x, s');
      var t := InsertByOrder(x, s');
      forall i | 0 <= i < |t|
        ensures t[i].order <= last.order
      {
        assert t[i] in multiset(t);
        if t[i] != x {
          assert t[i] in multiset(s');
        }
      }
    }
  }

  /** The sort yields a list sorted by ascending order. */
  lemma {:induction false} SortByOrderSorted(s: seq<Section>)
    ensures SortedByOrder(SortByOrder(s))
    decreases |s|
  {
    if s != [] {
      SortByOrderSorted(s[..|s| - 1]);
      InsertSorted(s[|s| - 1], SortByOrder(s[..|s| - 1]));
    }
  }

  /** The sort yields a permutation of its input. */
  lemma SortByOrderPermutation(s: seq<Section>)
    ensures multiset(SortByOrder(s)) == multiset(s)
    ensures |SortByOrder(s)| == |s|
  {
    SortKeepsMultiset(s);
    assert |multiset(SortByOrder(s))| == |SortByOrder(s)|;
  }

  lemma {:induction false} SortKeepsMultiset(s: seq<Section>)
    ensures multiset(SortByOrder(s)) == multiset(s)
    decreases |s|
  {
    if s != [] {
      var s' := s[..|s| - 1];
      var last := s[|s| - 1];
      var t := SortByOrder(s');
      SortKeepsMultiset(s');
      InsertPermutation(last, t);
      assert multiset(s) == multiset(s') + multiset{last} by {
        assert s == s' + [last];
      }
    }
  }

  lemma {:induction false} InsertStable(x: Section, s: seq<Section>, k: int)
    ensures WithOrder(InsertByOrder(x, s), k) == WithOrder(s, k) + (if x.order == k then [x] else [])
    decreases |s|
  {
    var xs := if x.order == k then [x] else [];
    if s == [] || s[|s| - 1].order <= x.order {
      WithOrderSnoc(s, x, k);
    } else {
      var s' := s[..|s| - 1];
      var last := s[|s| - 1];
      var ls := if last.order == k then [last] else [];
      var t := InsertByOrder(x, s');
      assert InsertByOrder(x, s) == t + [last];
      InsertStable(x, s', k);
      assert WithOrder(t, k) == WithOrder(s', k) + xs;
      WithOrderSnoc(t, last, k);
      assert WithOrder(t + [last], k) == WithOrder(s', k) + xs + ls;
      assert WithOrder(s, k) == WithOrder(s', k) + ls;
      assert xs == [] || ls == [];
      SwapEmpty(WithOrder(s', k), xs, ls);
    }
  }

  lemma SwapEmpty<T>(a: seq<T>, xs: seq<T>, ls: seq<T>)
    requires xs == [] || ls == []
    ensures a + xs + ls == a + ls + xs
  {
  }

  lemma WithOrderSnoc(s: seq<Section>, y: Section, k: int)
    ensures WithOrder(s + [y], k) == WithOrder(s, k) + (if y.order == k then [y] else [])
  {
    assert (s + [y])[..|s|] == s;
  }

  /**
   * Stability: for every order value, the sections carrying it keep their
   * relative order.
   */
  lemma {:induction false} SortByOrderStable(s: seq<Section>, k: int)
    ensures WithOrder(SortByOrder(s), k) == WithOrder(s, k)
    decreases |s|
  {
    if s != [] {
      var s' := s[..|s| - 1];
      SortByOrderStable(s', k);
      InsertStable(s[|s| - 1], SortByOrder(s'), k);
    }
  }

  /** Inserting x at a position j where it fits is what InsertByOrder does. */
  lemma {:induction false} InsertAt(x: Section, p: seq<Section>, j: nat)
    requires j <= |p|
    requires j == 0 || p[j - 1].order <= x.order
    requires forall m :: j <= m < |p| ==> p[m].order > x.order
    ensures InsertByOrder(x, p) == p[..j] + [x] + p[j..]
    decreases |p|
  {
    if |p| > j {
      var p' := p[..|p| - 1];
      InsertAt(x, p', j);
      assert p'[..j] == p[..j];
      assert p[j..] == p'[j..] + [p[|p| - 1]];
    }
  }

  /** Moves a[i] left past the larger orders before it: one insertion step. */
  method InsertLast(a: array<Section>, i: nat)
    requires i < a.Length
    modifies a
    ensures a[..i + 1] == InsertByOrder(old(a[i]), old(a[..i]))
    ensures a[i + 1..] == old(a[i + 1..])
  {
    var x := a[i];
    ghost var p := a[..i];
    ghost var rest := a[i + 1..];
    var j := i;
    while j > 0 && a[j - 1].order > x.order
      invariant 0 <= j <= i
      invariant forall m :: 0 <= m < j ==> a[m] == p[m]
      invariant forall m :: j < m <= i ==> a[m] == p[m - 1]
      invariant forall m :: j <= m < i ==> p[m].order > x.order
      invariant a[i + 1..] == rest
    {
      a[j] := a[j - 1];
      j := j - 1;
    }
    a[j] := x;
    Shifted(a[..i + 1], p, x, j);
    InsertAt(x, p, j);
  }

  /** The array prefix after the insertion loop, as a sequence. */
  lemma Shifted(t: seq<Section>, p: seq<Section>, x: Section, j: nat)
    requires |t| == |p| + 1 && j <= |p|
    requires forall m :: 0 <= m < j ==> t[m] == p[m]
    requires t[j] == x
    requires forall m :: j < m < |t| ==> t[m] == p[m - 1]
    ensures t == p[..j] + [x] + p[j..]
  {
  }

  /** One more element of the input: the sort of the longer prefix is one insertion further. */
  lemma SortStep(a0: seq<Section>, i: nat)
    requires i < |a0|
    ensures SortByOrder(a0[..i + 1]) == InsertByOrder(a0[i], SortByOrder(a0[..i]))
  {
    assert a0[..i + 1][..i] == a0[..i];
  }

  /** Sorts a in place: the insertion sort whose result is SortByOrder of the old contents. */
  method SortInPlace(a: array<Section>)
    modifies a
    ensures a[..] == SortByOrder(old(a[..]))
  {
    ghost var a0 := a[..];
    var i := 0;
    while i < a.Length
      invariant 0 <= i <= a.Length
      invariant a[..i] == SortByOrder(a0[..i])
      invariant a[i..] == a0[i..]
    {
      assert a[i] == a0[i] by { assert a[i..][0] == a0[i..][0]; }
      ghost var tail := a[i + 1..];
      assert tail == a0[i + 1..] by { assert a[i + 1..] == a[i..][1..]; }
      InsertLast(a, i);
      SortStep(a0, i);
      i := i + 1;
    }
    assert a[..] == a[..a.Length];
    assert a0 == a0[..a.Length];
  }

  ghost predicate DistinctBy<T, K>(s: seq<T>, key: T -> K) {
    forall i, j :: 0 <= i < j < |s| ==> key(s[i]) != key(s[j])
  }

  lemma {:induction false} CountAtMostOne<T, K>(s: seq<T>, key: T -> K, x: T)
    requires DistinctBy(s, key)
    ensures multiset(s)[x] <= 1
    decreases |s|
  {
    if s != [] {
      var rest := s[1..];
      assert s == [s[0]] + rest;
      assert DistinctBy(rest, key) by {
        forall i, j | 0 <= i < j < |rest| ensures key(rest[i]) != key(rest[j]) {
          assert rest[i] == s[i + 1] && rest[j] == s[j + 1];
        }
      }
      CountAtMostOne(rest, key, x);
      if x == s[0] {
        assert x !in rest by {
          forall i | 0 <= i < |rest| ensures rest[i] != x {
            assert key(s[0]) != key(s[i + 1]);
          }
        }
      }
    }
  }

  lemma TwoOccurrences<T>(s: seq<T>, i: nat, j: nat)
    requires i < j < |s| && s[i] == s[j]
    ensures multiset(s)[s[i]] >= 2
  {
    assert s == s[..j] + s[j..];
    assert s[i] in s[..j];
    assert s[j..][0] == s[j];
  }

  /** A permutation of a list whose keys are distinct has distinct keys too. */
  lemma PermutationKeepsDistinct<T, K>(a: seq<T>, b: seq<T>, key: T -> K)
    requires multiset(a) == multiset(b)
    requires DistinctBy(a, key)
    ensures DistinctBy(b, key)
  {
    forall i, j | 0 <= i < j < |b|
      ensures key(b[i]) != key(b[j])
    {
      assert b[i] in multiset(b) && b[j] in multiset(b);
      var p :| 0 <= p < |a| && a[p] == b[i];
      var q :| 0 <= q < |a| && a[q] == b[j];
      if b[i] == b[j] {
        TwoOccurrences(b, i, j);
        CountAtMostOne(a, key, b[i]);
        assert false;
      }
    }
  }

  lemma {:induction false} OrderAtLeastIndex(t: seq<Section>, k: nat)
    requires k < |t|
    requires forall i :: 0 <= i < |t| ==> 0 <= t[i].order
    requires forall i, j :: 0 <= i < j < |t| ==> t[i].order < t[j].order
    ensures k <= t[k].order
  {
    if k > 0 {
      OrderAtLeastIndex(t, k - 1);
    }
  }

  lemma {:induction false} OrderAtMostIndex(t: seq<Section>, k: nat)
    requires k < |t|
    requires forall i :: 0 <= i < |t| ==> t[i].order < |t|
    requires forall i, j :: 0 <= i < j < |t| ==> t[i].order < t[j].order
    ensures t[k].order <= k
    decreases |t| - k
  {
    if k < |t| - 1 {
      OrderAtMostIndex(t, k + 1);
    }
  }

  /**
   * A sorted list whose orders are distinct and lie in 0..n-1 carries the
   * order k at position k.
   */
  lemma OrdersAreRanks(t: seq<Section>)
    requires SortedByOrder(t)
    requires DistinctBy(t, (s: Section) => s.order)
    requires forall i :: 0 <= i < |t| ==> 0 <= t[i].order < |t|
    ensures forall k :: 0 <= k < |t| ==> t[k].order == k
  {
    forall i, j | 0 <= i < j < |t| ensures t[i].order < t[j].order {
      assert ((s: Section) => s.order)(t[i]) != ((s: Section) => s.order)(t[j]);
    }
    forall k | 0 <= k < |t| ensures t[k].order == k {
      OrderAtLeastIndex(t, k);
      OrderAtMostIndex(t, k);
    }
  }
}
