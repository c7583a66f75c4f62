/** Small shared vocabulary: optional values and abstract clock readings. */
module Basics {

  /** Go's nil-able pointers (`*time.Time`, `*HealthCheck`, ...) become Option. */
  datatype Option<+T> = None | Some(value: T)

  /** A reading of the wall clock. `time.Now()` is never called by the model:
      every operation that stamps a time receives `now` from its caller. */
  type Time = int

  function Min(a: int, b: int): int { if a <= b then a else b }

  /** `keys` lists every key of `m` exactly once, in some order. */
  ghost predicate Enumerates<V>(keys: seq<string>, m: map<string, V>)
  {
    && (forall i, j :: 0 <= i < j < |keys| ==> keys[i] != keys[j])
    && (forall i :: 0 <= i < |keys| ==> keys[i] in m)
    && (forall k :: k in m ==> k in keys)
  }

  /** Lists the keys of a map in an unspecified order, as a scan of a
      key-value bucket or of the engine's container table does. */
  method EnumerateKeys<V>(m: map<string, V>) returns (keys: seq<string>)
    ensures Enumerates(keys, m)
  {
    var rest := m.Keys;
    keys := [];
    while rest != {}
      invariant rest <= m.Keys
      invariant forall i, j :: 0 <= i < j < |keys| ==> keys[i] != keys[j]
      invariant forall i :: 0 <= i < |keys| ==> keys[i] in m && keys[i] !in rest
      invariant forall k :: k in m ==> k in keys || k in rest
      decreases rest
    {
      var k :| k in rest;
      keys := keys + [k];
      rest := rest - {k};
    }
  }

  /** A list of distinct keys is as long as the set of its elements. */
  lemma {:induction false} DistinctCard(keys: seq<string>)
    requires forall i, j :: 0 <= i < j < |keys| ==> keys[i] != keys[j]
    ensures |set k | k in keys| == |keys|
  {
    if keys != [] {
      var rest := keys[1..];
      DistinctCard(rest);
      assert (set k | k in keys) == {keys[0]} + (set k | k in rest);
      assert keys[0] !in (set k | k in rest);
    }
  }

  /** An enumeration of a map's keys is as long as the map. */
  lemma EnumeratesCard<V>(keys: seq<string>, m: map<string, V>)
    requires Enumerates(keys, m)
    ensures |keys| == |m|
  {
    DistinctCard(keys);
    assert (set k | k in keys) == m.Keys;
  }
}
