/**
 * `Array.prototype.filter` and the toggle idiom built on it
 * (`list.includes(x) ? list.filter(y => y !== x) : [...list, x]`), shared by
 * the bookmark, practice-link, sidebar-group and role-permission editors.
 */
module ListOps {

  /** `s.filter(p)`: the elements satisfying p, in their order in s. */
  function Filter<T>(s: seq<T>, p: T -> bool): (r: seq<T>)
    ensures |r| <= |s|
    ensures forall i :: 0 <= i < |r| ==> p(r[i])
    decreases |s|
  {
    if s == [] then []
    else Filter(s[..|s| - 1], p) + (if p(s[|s| - 1]) then [s[|s| - 1]] else [])
  }

  /** a is a subsequence of b: b with some elements deleted. */
  predicate IsSubsequence<T(==)>(a: seq<T>, b: seq<T>)
    decreases |b|
  {
    a == [] ||
    (b != [] &&
      ((a[|a| - 1] == b[|b| - 1] && IsSubsequence(a[..|a| - 1], b[..|b| - 1]))
        || IsSubsequence(a, b[..|b| - 1])))
  }

  /** A filter keeps exactly the satisfying elements, each as often as it occurs. */
  lemma {:induction false} FilterCount<T>(s: seq<T>, p: T -> bool, x: T)
    ensures multiset(Filter(s, p))[x] == if p(x) then multiset(s)[x] else 0
    decreases |s|
  {
    if s != [] {
      var q := s[..|s| - 1];
      FilterCount(q, p, x);
      assert s == q + [s[|s| - 1]];
    }
  }

  /** A filter keeps the survivors in their original order. */
  lemma {:induction false} FilterIsSubsequence<T>(s: seq<T>, p: T -> bool)
    ensures IsSubsequence(Filter(s, p), s)
    decreases |s|
  {
    if s != [] {
      var q := s[..|s| - 1];
      FilterIsSubsequence(q, p);
      var f := Filter(q, p);
      if p(s[|s| - 1]) {
        assert (f + [s[|s| - 1]])[..|f|] == f;
      } else {
        assert Filter(s, p) == f;
        assert s[..|s| - 1] == q;
      }
    }
  }

  /** Every list is a subsequence of itself. */
  lemma {:induction false} SubsequenceRefl<T>(s: seq<T>)
    ensures IsSubsequence(s, s)
    decreases |s|
  {
    if s != [] {
      SubsequenceRefl(s[..|s| - 1]);
    }
  }

  /** A subsequence of a subsequence is a subsequence. */
  lemma {:induction false} SubsequenceTrans<T>(a: seq<T>, b: seq<T>, c: seq<T>)
    requires IsSubsequence(a, b) && IsSubsequence(b, c)
    ensures IsSubsequence(a, c)
    decreases |a| + |b| + |c|
  {
    if a != [] {
      if IsSubsequence(b, c[..|c| - 1]) {
        SubsequenceTrans(a, b, c[..|c| - 1]);
      } else {
        assert b[|b| - 1] == c[|c| - 1] && IsSubsequence(b[..|b| - 1], c[..|c| - 1]);
        if a[|a| - 1] == b[|b| - 1] && IsSubsequence(a[..|a| - 1], b[..|b| - 1]) {
          SubsequenceTrans(a[..|a| - 1], b[..|b| - 1], c[..|c| - 1]);
        } else {
          SubsequenceTrans(a, b[..|b| - 1], c[..|c| - 1]);
        }
      }
    }
  }

  /** Every element a filter keeps comes from the input. */
  lemma FilterIn<T>(s: seq<T>, p: T -> bool)
    ensures forall i :: 0 <= i < |Filter(s, p)| ==> Filter(s, p)[i] in s
  {
    forall i | 0 <= i < |Filter(s, p)|
      ensures Filter(s, p)[i] in s
    {
      var x := Filter(s, p)[i];
      FilterCount(s, p, x);
      assert x in multiset(Filter(s, p));
    }
  }

  /** Filtering a list whose elements all satisfy p changes nothing. */
  lemma {:induction false} FilterKeepsAll<T>(s: seq<T>, p: T -> bool)
    requires forall i :: 0 <= i < |s| ==> p(s[i])
    ensures Filter(s, p) == s
    decreases |s|
  {
    if s != [] {
      FilterKeepsAll(s[..|s| - 1], p);
    }
  }

  /** Filtering by p and then by q is filtering by both. */
  lemma {:induction false} FilterCompose<T>(s: seq<T>, p: T -> bool, q: T -> bool, pq: T -> bool)
    requires forall x :: pq(x) == (p(x) && q(x))
    ensures Filter(Filter(s, p), q) == Filter(s, pq)
    decreases |s|
  {
    if s != [] {
      var last := s[|s| - 1];
      var f := Filter(s[..|s| - 1], p);
      FilterCompose(s[..|s| - 1], p, q, pq);
      assert Filter(s, pq) == Filter(s[..|s| - 1], pq) + (if pq(last) then [last] else []);
      if p(last) {
        assert Filter(s, p) == f + [last];
        assert (f + [last])[..|f|] == f;
        assert Filter(f + [last], q) == Filter(f, q) + (if q(last) then [last] else []);
      } else {
        assert Filter(s, p) == f;
      }
    }
  }

  /** `s.filter(y => y !== x)`. */
  function RemoveAll<T(==)>(s: seq<T>, x: T): (r: seq<T>)
    ensures x !in r
  {
    Filter(s, y => y != x)
  }

  /** `s.includes(x) ? s.filter(y => y !== x) : [...s, x]`. */
  function Toggle<T(==)>(s: seq<T>, x: T): (r: seq<T>)
    ensures x in s ==> r == RemoveAll(s, x)
    ensures x !in s ==> r == s + [x]
    ensures x in r <==> x !in s
  {
    if x in s then RemoveAll(s, x) else s + [x]
  }

  /** Every other element keeps its multiplicity; x occurs once after an add and never after a removal. */
  lemma ToggleCount<T>(s: seq<T>, x: T, y: T)
    ensures multiset(Toggle(s, x))[y] == if y != x then multiset(s)[y] else if x in s then 0 else 1
  {
    if x in s {
      FilterCount(s, z => z != x, y);
    }
  }

  /** Toggling an absent element twice gives the list back. */
  lemma ToggleTwiceAbsent<T>(s: seq<T>, x: T)
    requires x !in s
    ensures Toggle(Toggle(s, x), x) == s
  {
    FilterKeepsAll(s, y => y != x);
    assert (s + [x])[..|s|] == s;
  }

  /** Toggling a present element twice moves it, once, to the end. */
  lemma ToggleTwicePresent<T>(s: seq<T>, x: T)
    requires x in s
    ensures Toggle(Toggle(s, x), x) == RemoveAll(s, x) + [x]
  {
  }
}
