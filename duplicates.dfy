/** `dict_raise_on_duplicates`: the `object_pairs_hook` given to the JSON
    reader, which builds an object from its key/value pairs in document order
    and refuses the first key that appears a second time. */
module Duplicates {
  import opened Strings

  /** The keys of the pairs, as a set. */
  function KeySet<K(==), V>(pairs: seq<(K, V)>): set<K>
  {
    set i | 0 <= i < |pairs| :: pairs[i].0
  }

  /** No two pairs share a key. */
  predicate DistinctKeys<K(==), V>(pairs: seq<(K, V)>)
  {
    forall i, j :: 0 <= i < j < |pairs| ==> pairs[i].0 != pairs[j].0
  }

  /** The dictionary the pairs spell out, each later pair overriding. */
  function Build<K(==), V>(pairs: seq<(K, V)>): map<K, V>
    decreases |pairs|
  {
    if pairs == [] then map[]
    else
      var n := |pairs| - 1;
      Build(pairs[..n])[pairs[n].0 := pairs[n].1]
  }

  /** The position of the first pair whose key an earlier pair has. */
  function FirstRepeat<K(==), V>(pairs: seq<(K, V)>): (r: Option<nat>)
    ensures r.Some? ==> r.value < |pairs|
    decreases |pairs|
  {
    if pairs == [] then None
    else
      var n := |pairs| - 1;
      match FirstRepeat(pairs[..n])
      case Some(i) => Some(i)
      case None => if pairs[n].0 in KeySet(pairs[..n]) then Some(n) else None
  }

  /** What the hook returns: the dictionary, or the duplicate key it raises
      `ValidationError` with. */
  function Decode<K(==), V>(pairs: seq<(K, V)>): Result<map<K, V>, K>
  {
    match FirstRepeat(pairs)
    case Some(i) => Failure(pairs[i].0)
    case None => Success(Build(pairs))
  }

  /** The loop of lines 41-47. */
  method DictRaiseOnDuplicates<K(==), V>(pairs: seq<(K, V)>) returns (r: Result<map<K, V>, K>)
    ensures r == Decode(pairs)
  {
    var d: map<K, V> := map[];
    var n := 0;
    while n < |pairs|
      invariant 0 <= n <= |pairs|
      invariant FirstRepeat(pairs[..n]) == None
      invariant d == Build(pairs[..n])
    {
      var (k, v) := pairs[n];
      assert pairs[..n + 1][..n] == pairs[..n];
      BuildKeys(pairs[..n]);
      if k in d {
        assert FirstRepeat(pairs[..n + 1]) == Some(n);
        FirstRepeatExtends(pairs, n + 1);
        return Failure(k);
      }
      d := d[k := v];
      n := n + 1;
    }
    assert pairs[..n] == pairs;
    return Success(d);
  }

  /** The dictionary has exactly the keys of the pairs. */
  lemma {:induction false} BuildKeys<K, V>(pairs: seq<(K, V)>)
    ensures Build(pairs).Keys == KeySet(pairs)
    decreases |pairs|
  {
    if pairs != [] {
      var n := |pairs| - 1;
      BuildKeys(pairs[..n]);
      assert forall i :: 0 <= i < n ==> pairs[..n][i] == pairs[i];
      assert KeySet(pairs) == KeySet(pairs[..n]) + {pairs[n].0};
    }
  }

  /** A repeat found in a prefix is the first repeat of the whole. */
  lemma {:induction false} FirstRepeatExtends<K, V>(pairs: seq<(K, V)>, m: nat)
    requires m <= |pairs| && FirstRepeat(pairs[..m]).Some?
    ensures FirstRepeat(pairs) == FirstRepeat(pairs[..m])
    decreases |pairs| - m
  {
    if m == |pairs| {
      assert pairs[..m] == pairs;
    } else {
      assert pairs[..m + 1][..m] == pairs[..m];
      assert FirstRepeat(pairs[..m + 1]) == FirstRepeat(pairs[..m]);
      FirstRepeatExtends(pairs, m + 1);
    }
  }

  /** The first repeat is a position whose key occurs before it, and the
      pairs before it have distinct keys; without a repeat all keys are
      distinct. */
  lemma {:induction false} FirstRepeatMeaning<K, V>(pairs: seq<(K, V)>)
    ensures FirstRepeat(pairs).None? ==> DistinctKeys(pairs)
    ensures FirstRepeat(pairs).Some? ==>
      && FirstRepeat(pairs).value < |pairs|
      && DistinctKeys(pairs[..FirstRepeat(pairs).value])
      && pairs[FirstRepeat(pairs).value].0 in KeySet(pairs[..FirstRepeat(pairs).value])
    decreases |pairs|
  {
    if pairs != [] {
      var n := |pairs| - 1;
      var prefix := pairs[..n];
      FirstRepeatMeaning(prefix);
      assert forall i :: 0 <= i < n ==> prefix[i] == pairs[i];
      match FirstRepeat(prefix)
      case Some(i) =>
        assert prefix[..i] == pairs[..i];
      case None =>
        if pairs[n].0 !in KeySet(prefix) {
          forall i, j | 0 <= i < j < |pairs|
            ensures pairs[i].0 != pairs[j].0
          {
            if j == n {
              assert pairs[i].0 == prefix[i].0 && prefix[i].0 in KeySet(prefix);
            }
          }
        }
    }
  }

  /** The hook succeeds exactly when no key repeats. */
  lemma DecodeSucceeds<K, V>(pairs: seq<(K, V)>)
    ensures Decode(pairs).Success? <==> DistinctKeys(pairs)
  {
    FirstRepeatMeaning(pairs);
    var r := FirstRepeat(pairs);
    if r.Some? {
      var i := r.value;
      var j :| 0 <= j < i && pairs[..i][j].0 == pairs[i].0;
      assert pairs[j].0 == pairs[i].0;
    }
  }

  /** With distinct keys the dictionary binds every key to its own value
      and has no other key. */
  lemma {:induction false} DecodeContents<K, V>(pairs: seq<(K, V)>)
    requires DistinctKeys(pairs)
    ensures Decode(pairs).Success?
    ensures Decode(pairs).value.Keys == KeySet(pairs)
    ensures forall i :: 0 <= i < |pairs| ==> Decode(pairs).value[pairs[i].0] == pairs[i].1
  {
    DecodeSucceeds(pairs);
    FirstRepeatMeaning(pairs);
    BuildKeys(pairs);
    BuildValues(pairs);
  }

  lemma {:induction false} BuildValues<K, V>(pairs: seq<(K, V)>)
    requires DistinctKeys(pairs)
    ensures forall i :: 0 <= i < |pairs| ==> pairs[i].0 in Build(pairs) && Build(pairs)[pairs[i].0] == pairs[i].1
    decreases |pairs|
  {
    if pairs != [] {
      var n := |pairs| - 1;
      var prefix := pairs[..n];
      assert forall i :: 0 <= i < n ==> prefix[i] == pairs[i];
      BuildValues(prefix);
    }
  }

  /** On a repeat the hook names the first key met a second time: the key
      at the first position whose key already occurred. */
  lemma DecodeFailure<K, V>(pairs: seq<(K, V)>, f: int)
    requires 0 <= f < |pairs| && DistinctKeys(pairs[..f]) && pairs[f].0 in KeySet(pairs[..f])
    ensures Decode(pairs) == Failure(pairs[f].0)
  {
    var prefix := pairs[..f];
    FirstRepeatMeaning(prefix);
    DecodeSucceeds(prefix);
    assert pairs[..f + 1][..f] == prefix;
    assert FirstRepeat(pairs[..f + 1]) == Some(f);
    FirstRepeatExtends(pairs, f + 1);
  }
}
