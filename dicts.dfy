/**
 * An insertion-ordered dictionary, the value a Python `dict` holds: a map from
 * keys to values together with the order in which the keys were first inserted.
 * Overwriting an existing key keeps its position; a new key goes last.
 */
module Dicts {
  import opened Wrappers
  import opened Seqs

  datatype Dict<K, V> = Dict(keys: seq<K>, entries: map<K, V>) {

    /** The key order lists every key of the map exactly once. */
    ghost predicate Valid() {
      && NoDuplicates(keys)
      && (forall k :: k in keys ==> k in entries)
      && (forall k :: k in entries ==> k in keys)
    }

    /** `d[k] = v` */
    function Put(k: K, v: V): (d: Dict<K, V>)
      requires Valid()
      ensures d.Valid()
      ensures d.entries == entries[k := v]
      ensures k in entries ==> d.keys == keys
      ensures k !in entries ==> d.keys == keys + [k]
    {
      if k in entries then Dict(keys, entries[k := v]) else Dict(keys + [k], entries[k := v])
    }

    /** `d.get(k)` */
    function Get(k: K): (r: Option<V>)
      ensures r.Some? <==> k in entries
      ensures r.Some? ==> r.value == entries[k]
    {
      if k in entries then Some(entries[k]) else None
    }
  }

  /** A second put under the same key overwrites the first and keeps the key's place. */
  lemma PutPut<K, V>(d: Dict<K, V>, k: K, v1: V, v2: V)
    requires d.Valid()
    ensures d.Put(k, v1).Put(k, v2) == d.Put(k, v2)
  {
  }

  /** Putting a value that is already stored under its key changes nothing. */
  lemma PutSame<K, V>(d: Dict<K, V>, k: K)
    requires d.Valid() && k in d.entries
    ensures d.Put(k, d.entries[k]) == d
  {
  }
}
