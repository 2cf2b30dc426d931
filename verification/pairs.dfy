/**
  Ordered key/value pairs — query parameters, headers, JSON payload
  members — and the "first pair with this key" lookup that
  `URLSearchParams.get` and header lookup share.
 */
module Pairs {
  import opened Wrappers

  type Pair = (string, string)

  /** The value of the first pair whose key is `key`. */
  function First(pairs: seq<Pair>, key: string): Option<string> {
    if |pairs| == 0 then None
    else if pairs[0].0 == key then Some(pairs[0].1)
    else First(pairs[1..], key)
  }

  /** A key is found exactly when some pair carries it. */
  lemma {:induction false} FirstAbsent(pairs: seq<Pair>, key: string)
    ensures First(pairs, key).None? <==> forall i :: 0 <= i < |pairs| ==> pairs[i].0 != key
  {
    if |pairs| > 0 && pairs[0].0 != key {
      FirstAbsent(pairs[1..], key);
      assert forall i :: 1 <= i < |pairs| ==> pairs[i] == pairs[1..][i - 1];
    }
  }

  /** The pair at a position preceded by no other pair with its key is the one `First` finds. */
  lemma {:induction false} FirstAt(pairs: seq<Pair>, i: nat)
    requires i < |pairs|
    requires forall j :: 0 <= j < i ==> pairs[j].0 != pairs[i].0
    ensures First(pairs, pairs[i].0) == Some(pairs[i].1)
  {
    if i > 0 {
      var tail := pairs[1..];
      assert tail[i - 1] == pairs[i];
      forall j | 0 <= j < i - 1 ensures tail[j].0 != tail[i - 1].0 {
        assert tail[j] == pairs[j + 1];
      }
      FirstAt(tail, i - 1);
    }
  }
}
