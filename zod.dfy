/**
 * The issue list a zod object schema reports: one issue for every key whose
 * check fails, in the order of the schema's keys.
 */
module Zod {

  /** The keys at the positions where the check failed, in order. */
  function Issues(keys: seq<string>, ok: seq<bool>): (r: seq<string>)
    requires |ok| == |keys|
    ensures r == [] <==> forall j :: 0 <= j < |ok| ==> ok[j]
    ensures forall j :: 0 <= j < |ok| && !ok[j] ==> keys[j] in r
    ensures forall k :: k in r ==> k in keys
    ensures |r| == Failures(ok) <= |keys|
  {
    if keys == [] then []
    else
      var rest := Issues(keys[1..], ok[1..]);
      assert forall j :: 1 <= j < |ok| ==> ok[j] == ok[1..][j - 1] && keys[j] == keys[1..][j - 1];
      (if ok[0] then [] else [keys[0]]) + rest
  }

  /** Only the keys of failed checks are reported. */
  lemma {:induction false} IssueIff(keys: seq<string>, ok: seq<bool>, k: string)
    requires |ok| == |keys|
    ensures k in Issues(keys, ok) <==> exists j :: 0 <= j < |ok| && !ok[j] && keys[j] == k
  {
    if keys != [] {
      IssueIff(keys[1..], ok[1..], k);
      if k in Issues(keys[1..], ok[1..]) {
        var j :| 0 <= j < |ok[1..]| && !ok[1..][j] && keys[1..][j] == k;
        assert !ok[j + 1] && keys[j + 1] == k;
      }
      if j :| 0 <= j < |ok| && !ok[j] && keys[j] == k {
        if j > 0 {
          assert !ok[1..][j - 1] && keys[1..][j - 1] == k;
        }
      }
    }
  }

  /** The number of failed checks. */
  function Failures(ok: seq<bool>): (n: nat)
    ensures n <= |ok|
  {
    if ok == [] then 0 else (if ok[0] then 0 else 1) + Failures(ok[1..])
  }

  /**
   * The order: the key of a failed check at position `j` is the issue after
   * exactly the failures before `j`. With `|Issues(keys, ok)| == Failures(ok)`
   * this fixes every issue and its place.
   */
  lemma {:induction false} IssuesAt(keys: seq<string>, ok: seq<bool>, j: nat)
    requires |ok| == |keys| && j < |ok| && !ok[j]
    ensures Failures(ok[..j]) < |Issues(keys, ok)|
    ensures Issues(keys, ok)[Failures(ok[..j])] == keys[j]
  {
    if j == 0 {
      assert ok[..0] == [];
    } else {
      IssuesAt(keys[1..], ok[1..], j - 1);
      var rest := Issues(keys[1..], ok[1..]);
      var n := Failures(ok[1..][..j - 1]);
      assert ok[..j][1..] == ok[1..][..j - 1];
      if ok[0] {
        assert Issues(keys, ok) == rest;
        assert Failures(ok[..j]) == n;
      } else {
        assert Issues(keys, ok) == [keys[0]] + rest;
        assert Failures(ok[..j]) == 1 + n;
        assert ([keys[0]] + rest)[1 + n] == rest[n];
      }
    }
  }
}
