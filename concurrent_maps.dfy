/**
 * The three ConcurrentDictionary operations the player registries use,
 * stated on the dictionary's contents as a map. Each call is atomic, so
 * concurrent callers see these effects in some sequential order.
 */
module ConcurrentMaps {
  /** TryAdd: stores the value only when the key is free; reports whether it did. */
  function TryAdd<K, V>(m: map<K, V>, k: K, v: V): (r: (bool, map<K, V>))
    ensures r.0 <==> k !in m
    ensures k in r.1 && r.1.Keys == m.Keys + {k}
    ensures r.1[k] == if r.0 then v else m[k]
    ensures forall j :: j in m && j != k ==> j in r.1 && r.1[j] == m[j]
    ensures |r.1| == |m| + (if r.0 then 1 else 0)
  {
    if k in m then (false, m) else (true, m[k := v])
  }

  /** TryRemove: removes the key; reports whether it was present. */
  function TryRemove<K, V>(m: map<K, V>, k: K): (r: (bool, map<K, V>))
    ensures r.0 <==> k in m
    ensures r.1.Keys == m.Keys - {k}
    ensures forall j :: j in r.1 ==> r.1[j] == m[j]
    ensures |r.1| == |m| - (if r.0 then 1 else 0)
  {
    (k in m, m - {k})
  }

  /** Adding a fresh key and removing it again restores the dictionary. */
  lemma AddThenRemove<K, V>(m: map<K, V>, k: K, v: V)
    requires k !in m
    ensures TryAdd(m, k, v).0 && TryRemove(TryAdd(m, k, v).1, k) == (true, m)
  {
    assert TryAdd(m, k, v).1 - {k} == m;
  }

  /** A second add under the same key fails and keeps the first value. */
  lemma AddTwiceKeepsFirst<K, V>(m: map<K, V>, k: K, v: V, w: V)
    requires k !in m
    ensures var (_, m1) := TryAdd(m, k, v);
            var (ok, m2) := TryAdd(m1, k, w);
            !ok && m2 == m1 && m2[k] == v
  {
  }

  /** Removing succeeds once: a second removal of the same key reports false. */
  lemma RemoveTwice<K, V>(m: map<K, V>, k: K)
    ensures var (_, m1) := TryRemove(m, k);
            var (ok, m2) := TryRemove(m1, k);
            !ok && m2 == m1 && k !in m1
  {
  }
}
