/**
 * A JavaScript Map keyed by strings: the entries plus the order in which
 * their keys were first inserted, which is the order `Map.prototype.values`
 * iterates in.
 */
module Tables {
  import opened Wrappers
  import opened Seqs

  datatype Table<V> = Table(keys: seq<string>, rows: map<string, V>) {

    /** The key order lists every key exactly once. */
    ghost predicate Valid() {
      Distinct(keys) && forall k :: k in keys <==> k in rows
    }

    /** `map.get(k)`, undefined as None. */
    function Get(k: string): Option<V> {
      if k in rows then Some(rows[k]) else None
    }

    /** `map.set(k, v)`: a new key goes last, an existing key keeps its place. */
    function Put(k: string, v: V): (t: Table<V>)
      ensures t.rows == rows[k := v]
      ensures Valid() ==> t.Valid() && keys <= t.keys
    {
      Table(if k in rows then keys else keys + [k], rows[k := v])
    }

    /** `map.delete(k)`. */
    function Delete(k: string): (t: Table<V>)
      ensures t.rows == rows - {k}
      ensures Valid() ==> t.Valid()
    {
      Table(Without(keys, k), rows - {k})
    }

    /** `Array.from(map.values())`. */
    function Values(): (vs: seq<V>)
      requires Valid()
      ensures |vs| == |keys|
      ensures forall i :: 0 <= i < |keys| ==> vs[i] == rows[keys[i]]
    {
      seq(|keys|, i requires 0 <= i < |keys| => rows[keys[i]])
    }
  }

  /** `new Map()` and `map.clear()`. */
  function EmptyTable<V>(): (t: Table<V>)
    ensures t.Valid() && t.rows == map[]
  {
    Table([], map[])
  }
}
