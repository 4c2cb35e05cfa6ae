/** The process-wide cache of app/core/cache.py (a singleton over Redis),
    as the services see it: a map from string keys to the JSON objects
    stored under them. Expiry, connection errors and statistics belong to
    the Redis server and are not part of this model. */
module SharedCaches {
  import opened Common

  class SharedCache {
    var entries: map<string, map<string, Json>>

    constructor ()
      ensures entries == map[]
    {
      entries := map[];
    }

    /** `cache.get(key)`: the stored object, or None. */
    function Get(key: string): (r: Option<map<string, Json>>)
      reads this
      ensures r.Some? <==> key in entries
      ensures r.Some? ==> r.value == entries[key]
    {
      if key in entries then Some(entries[key]) else None
    }

    /** `cache.set(key, value)`. */
    method Set(key: string, value: map<string, Json>)
      modifies this
      ensures entries == old(entries)[key := value]
    {
      entries := entries[key := value];
    }
  }
}
