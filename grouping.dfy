/**
 * Grouping a list by a string key, as the bookmark catalogue (`forEach` with
 * `push` into a record) and the role editor (`reduce` with `push`) do. The
 * group keys come out in first-occurrence order, the insertion order of the
 * JavaScript object.
 */
module Grouping {
  import opened ListOps

  /** The items whose key is k, in their order. */
  function Select<T>(items: seq<T>, key: T -> string, k: string): seq<T> {
    Filter(items, x => key(x) == k)
  }

  /** The distinct keys of the items, in the order they first occur. */
  function FirstKeys<T>(items: seq<T>, key: T -> string): (ks: seq<string>)
    decreases |items|
  {
    if items == [] then []
    else
      var ks := FirstKeys(items[..|items| - 1], key);
      if key(items[|items| - 1]) in ks then ks else ks + [key(items[|items| - 1])]
  }

  lemma {:induction false} FirstKeysMembership<T>(items: seq<T>, key: T -> string, k: string)
    ensures k in FirstKeys(items, key) <==> exists i :: 0 <= i < |items| && key(items[i]) == k
    decreases |items|
  {
    if items != [] {
      var p := items[..|items| - 1];
      FirstKeysMembership(p, key, k);
      assert forall i :: 0 <= i < |p| ==> p[i] == items[i];
    }
  }

  predicate NoDuplicates(ks: seq<string>) {
    forall i, j :: 0 <= i < j < |ks| ==> ks[i] != ks[j]
  }

  lemma {:induction false} FirstKeysDistinct<T>(items: seq<T>, key: T -> string)
    ensures NoDuplicates(FirstKeys(items, key))
    decreases |items|
  {
    if items != [] {
      var ks := FirstKeys(items[..|items| - 1], key);
      FirstKeysDistinct(items[..|items| - 1], key);
      var x := key(items[|items| - 1]);
      if x !in ks {
        var ks' := ks + [x];
        assert FirstKeys(items, key) == ks';
        forall i, j | 0 <= i < j < |ks'| ensures ks'[i] != ks'[j] {
          assert ks'[i] == ks[i];
          if j < |ks| {
            assert ks'[j] == ks[j];
          } else {
            assert ks'[j] == x && ks[i] in ks;
          }
        }
      }
    }
  }

  /** No item carries k: its group is empty. */
  lemma {:induction false} SelectNone<T>(items: seq<T>, key: T -> string, k: string)
    requires forall i :: 0 <= i < |items| ==> key(items[i]) != k
    ensures Select(items, key, k) == []
    decreases |items|
  {
    if items != [] {
      SelectNone(items[..|items| - 1], key, k);
    }
  }

  lemma SelectStep<T>(items: seq<T>, key: T -> string, k: string, x: T)
    ensures Select(items + [x], key, k) == Select(items, key, k) + (if key(x) == k then [x] else [])
  {
    assert (items + [x])[..|items|] == items;
  }

  /**
   * Builds the groups with a loop: the keys in first-occurrence order and,
   * for each key, exactly the items carrying it in their input order.
   */
  method GroupBy<T>(items: seq<T>, key: T -> string) returns (keys: seq<string>, groups: map<string, seq<T>>)
    ensures keys == FirstKeys(items, key)
    ensures forall k :: k in groups <==> k in keys
    ensures forall k :: k in groups ==> groups[k] == Select(items, key, k)
  {
    keys, groups := [], map[];
    var i := 0;
    while i < |items|
      invariant 0 <= i <= |items|
      invariant keys == FirstKeys(items[..i], key)
      invariant forall k :: k in groups <==> k in keys
      invariant forall k :: k in groups ==> groups[k] == Select(items[..i], key, k)
    {
      var x := items[i];
      var k := key(x);
      assert items[..i + 1] == items[..i] + [x];
      assert items[..i + 1][..i] == items[..i];
      forall k' | k' in groups && k' != k
        ensures Select(items[..i + 1], key, k') == groups[k']
      {
        SelectStep(items[..i], key, k', x);
      }
      SelectStep(items[..i], key, k, x);
      if k !in groups {
        FirstKeysMembership(items[..i], key, k);
        SelectNone(items[..i], key, k);
        groups := groups[k := []];
        keys := keys + [k];
      }
      groups := groups[k := groups[k] + [x]];
      i := i + 1;
    }
    assert items[..i] == items;
  }

  /** Every item sits in the group of its own key, as often as it occurs in the input. */
  lemma GroupCount<T>(items: seq<T>, key: T -> string, k: string, x: T)
    ensures multiset(Select(items, key, k))[x] == if key(x) == k then multiset(items)[x] else 0
  {
    FilterCount(items, y => key(y) == k, x);
  }

  /** Each group keeps its items in their input order. */
  lemma GroupOrder<T>(items: seq<T>, key: T -> string, k: string)
    ensures IsSubsequence(Select(items, key, k), items)
  {
    FilterIsSubsequence(items, y => key(y) == k);
  }
}
