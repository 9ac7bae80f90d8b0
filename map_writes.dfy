/**
 * A JavaScript `Map` updated by a sequence of `set(key, value)` calls in
 * order: a later call with the same key overwrites the earlier entry.
 */
module MapWrites {
  /** The map after `m.set(keys[i], values[i])` for i = 0, 1, ... in turn. */
  function SetAll<V>(m: map<string, V>, keys: seq<string>, values: seq<V>): map<string, V>
    requires |keys| == |values|
    decreases |keys|
  {
    if keys == [] then m
    else SetAll(m, keys[..|keys| - 1], values[..|values| - 1])[keys[|keys| - 1] := values[|values| - 1]]
  }

  /** One more `set` call extends the sequence of writes. */
  lemma SetAllSnoc<V>(m: map<string, V>, keys: seq<string>, values: seq<V>, k: string, v: V)
    requires |keys| == |values|
    ensures SetAll(m, keys + [k], values + [v]) == SetAll(m, keys, values)[k := v]
  {
    assert (keys + [k])[..|keys|] == keys;
    assert (values + [v])[..|values|] == values;
  }

  /** `k` occurs at `i` and nowhere after it. */
  ghost predicate LastIndexOf(keys: seq<string>, k: string, i: int)
  {
    0 <= i < |keys| && keys[i] == k && forall j :: i < j < |keys| ==> keys[j] != k
  }

  /**
   * A written key is present and holds the value of its last write; a key
   * never written is present exactly when it was before, with its old value.
   */
  lemma {:induction false} SetAllLastWriteWins<V>(m: map<string, V>, keys: seq<string>, values: seq<V>, k: string, i: int)
    requires |keys| == |values|
    ensures LastIndexOf(keys, k, i) ==> k in SetAll(m, keys, values) && SetAll(m, keys, values)[k] == values[i]
    ensures k !in keys ==> (k in SetAll(m, keys, values) <==> k in m)
    ensures k !in keys && k in m ==> SetAll(m, keys, values)[k] == m[k]
    decreases |keys|
  {
    if keys != [] {
      var n := |keys| - 1;
      SetAllLastWriteWins(m, keys[..n], values[..n], k, i);
      if LastIndexOf(keys, k, i) && i < n {
        assert LastIndexOf(keys[..n], k, i);
      }
      if k !in keys {
        assert k !in keys[..n];
      }
    }
  }
}
