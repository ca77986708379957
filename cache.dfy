/**
 * The in-process response cache the handlers share: a key/value map whose
 * entries remember the time-to-live they were stored with. Expiry itself is
 * driven by a clock and is not part of this model.
 */
module ResponseCache {
  import opened Wrappers

  datatype Entry<V> = Entry(value: V, ttl: nat)

  class Cache<V> {
    var entries: map<string, Entry<V>>

    constructor ()
      ensures entries == map[]
    {
      entries := map[];
    }

    /** `get(key)`: the stored value, or `None` (`undefined`) for a key never set since the last flush. */
    method Get(key: string) returns (r: Option<V>)
      ensures r.Some? <==> key in entries
      ensures r.Some? ==> r.value == entries[key].value
    {
      r := if key in entries then Some(entries[key].value) else None;
    }

    /** `set(key, value, ttl)`: stores or replaces the entry under `key`, leaving the others. */
    method Set(key: string, value: V, ttl: nat)
      modifies this
      ensures entries == old(entries)[key := Entry(value, ttl)]
    {
      entries := entries[key := Entry(value, ttl)];
    }

    /** `flush()`: removes every entry. */
    method Flush()
      modifies this
      ensures entries == map[]
    {
      entries := map[];
    }
  }
}
