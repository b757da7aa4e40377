/**
 * The process-wide key/value cache the handlers share: serialised snapshots
 * stored under string keys, kept until a caller deletes them.
 */
module KeyValueCache {
  import opened Wrappers

  class Cache {
    var entries: map<string, string>

    constructor ()
      ensures entries == map[]
    {
      entries := map[];
    }

    /** `has(key)`. */
    predicate Has(key: string)
      reads this
    {
      key in entries
    }

    /** `get(key)`: the stored string, or None when the key is absent. */
    function Get(key: string): (r: Option<string>)
      reads this
      ensures r.Some? <==> key in entries
      ensures r.Some? ==> r.value == entries[key]
    {
      if key in entries then Some(entries[key]) else None
    }

    /** `set(key, value)`: stores or replaces one entry. */
    method Set(key: string, value: string)
      modifies this
      ensures entries == old(entries)[key := value]
    {
      entries := entries[key := value];
    }

    /** `del(keys)`: removes every listed key; absent keys are ignored. */
    method Del(keys: seq<string>)
      modifies this
      ensures entries == old(entries) - (set k | k in keys)
    {
      entries := entries - (set k | k in keys);
    }
  }
}
