/** CacheMiddleware of app/middleware/cache.py: an in-memory dictionary of
    entries, each with its data, the time it was set and the time it was
    last read, plus hit and miss counters. Entries expire `ttl` seconds
    after they were set (CACHE_TTL_MINUTES * 60); when the size estimate
    reaches CACHE_MAX_SIZE_MB, a set first evicts the least recently read
    quarter. The size estimate is a parameter of set. */
module CacheMiddlewares {
  import opened Common
  import opened Sorting

  datatype Entry = Entry(data: map<string, Json>, timestamp: int, lastAccessed: int)

  /** The cache dictionary and the hit and miss counters. */
  datatype CacheState = CacheState(entries: map<string, Entry>, hits: nat, misses: nat)

  /** `get`: the data and the state afterwards. */
  function Get(s: CacheState, key: string, now: int, ttl: int): (Option<map<string, Json>>, CacheState) {
    if key !in s.entries then (None, s.(misses := s.misses + 1))
    else if now - s.entries[key].timestamp > ttl then
      (None, s.(entries := s.entries - {key}, misses := s.misses + 1))
    else
      (Some(s.entries[key].data),
       s.(entries := s.entries[key := s.entries[key].(lastAccessed := now)], hits := s.hits + 1))
  }

  /** What a get answers and what it leaves behind: an absent key is a
      miss that changes nothing else; an entry more than `ttl` seconds past
      its set time is removed and is a miss; a live entry is a hit that
      moves only its last-read time. Every get counts exactly once. */
  lemma GetOutcome(s: CacheState, key: string, now: int, ttl: int)
    ensures var (r, s') := Get(s, key, now, ttl);
      && s'.hits + s'.misses == s.hits + s.misses + 1
      && (r.Some? <==> key in s.entries && now - s.entries[key].timestamp <= ttl)
      && (r.None? ==> s'.misses == s.misses + 1 && s'.hits == s.hits && s'.entries == s.entries - {key})
      && (r.Some? ==>
            && r.value == s.entries[key].data && s'.hits == s.hits + 1 && s'.misses == s.misses
            && s'.entries.Keys == s.entries.Keys
            && s'.entries[key] == Entry(s.entries[key].data, s.entries[key].timestamp, now)
            && forall k :: k in s.entries && k != key ==> s'.entries[k] == s.entries[k])
  {
  }

  /** Expiry runs from the set time: reading an entry does not extend its
      life, so after a hit at t1 a get at t2 still measures from the
      original timestamp. */
  lemma ReadsDoNotExtendLife(s: CacheState, key: string, t1: int, t2: int, ttl: int)
    requires Get(s, key, t1, ttl).0.Some?
    ensures Get(Get(s, key, t1, ttl).1, key, t2, ttl).0.Some? <==> t2 - s.entries[key].timestamp <= ttl
  {
  }

  /** `delete`: true and the key gone iff it was there. */
  function Delete(s: CacheState, key: string): (r: (bool, CacheState))
    ensures r.0 <==> key in s.entries
    ensures r.1.entries.Keys == s.entries.Keys - {key}
    ensures forall k :: k in r.1.entries ==> r.1.entries[k] == s.entries[k]
    ensures r.1.hits == s.hits && r.1.misses == s.misses
    ensures !r.0 ==> r.1 == s
  {
    if key in s.entries then (true, s.(entries := s.entries - {key})) else (false, s)
  }

  /** `get_stats` without the size and with the hit rate unrounded. */
  datatype Stats = Stats(hits: nat, misses: nat, hitRatePercent: real, itemsCount: nat)

  function GetStats(s: CacheState): (st: Stats)
    ensures st.itemsCount == |s.entries|
    ensures st.hits == s.hits && st.misses == s.misses
    ensures 0.0 <= st.hitRatePercent <= 100.0
    ensures s.hits + s.misses == 0 ==> st.hitRatePercent == 0.0
    ensures s.misses == 0 && s.hits > 0 ==> st.hitRatePercent == 100.0
    ensures s.hits + s.misses > 0 ==>
      st.hitRatePercent * ((s.hits + s.misses) as real) == 100.0 * (s.hits as real)
  {
    var total := s.hits + s.misses;
    var rate := if total > 0 then (s.hits as real) / (total as real) * 100.0 else 0.0;
    Stats(s.hits, s.misses, rate, |s.entries|)
  }

  /** The last-read time of key `k` (0 for a key not in the cache). */
  function LastRead(entries: map<string, Entry>, k: string): int {
    if k in entries then entries[k].lastAccessed else 0
  }

  /** `_evict_oldest` as a relation: nothing happens to an empty cache;
      otherwise exactly max(1, n // 4) entries go, none of them read later
      than any entry that stays, and the rest are kept as they were. */
  predicate EvictedOldest(before: map<string, Entry>, after: map<string, Entry>) {
    if before == map[] then after == map[]
    else
      && after.Keys <= before.Keys
      && (forall k :: k in after ==> after[k] == before[k])
      && |before.Keys - after.Keys| == Max(1, |before| / 4)
      && (forall r, k :: r in before && r !in after && k in after ==> before[r].lastAccessed <= after[k].lastAccessed)
  }

  /** Ordering keys by last-read time. */
  function ByLastRead(entries: map<string, Entry>): (string, string) -> bool {
    (a, b) => LastRead(entries, a) <= LastRead(entries, b)
  }

  lemma ByLastReadIsPreorder(entries: map<string, Entry>)
    ensures Total(ByLastRead(entries)) && Transitive(ByLastRead(entries))
  {
  }

  /** The map without the keys in the first `n` places of `order`. */
  function WithoutFirst(entries: map<string, Entry>, order: seq<string>, n: nat): map<string, Entry>
    requires n <= |order|
  {
    map k | k in entries && k !in order[..n] :: entries[k]
  }

  lemma WithoutFirstStep(entries: map<string, Entry>, order: seq<string>, i: nat)
    requires i < |order|
    ensures WithoutFirst(entries, order, i + 1) == WithoutFirst(entries, order, i) - {order[i]}
  {
    assert order[..i + 1] == order[..i] + [order[i]];
  }

  /** Removing the first n keys of the cache sorted by last-read time
      (1 <= n <= the cache size) evicts the oldest n entries. */
  lemma EvictPrefixOldest(entries: map<string, Entry>, order: seq<string>, n: nat)
    requires Distinct(order) && (forall k :: k in order <==> k in entries)
    requires SortedBy(order, ByLastRead(entries))
    requires 1 <= n <= |order| && n == Max(1, |entries| / 4)
    ensures EvictedOldest(entries, WithoutFirst(entries, order, n))
  {
    var after := WithoutFirst(entries, order, n);
    var gone := set k | k in order[..n];
    assert entries.Keys - after.Keys == gone;
    DistinctCount(order[..n]);
    assert entries != map[] by { assert order[0] in entries; }
    forall r, k | r in entries && r !in after && k in after
      ensures entries[r].lastAccessed <= after[k].lastAccessed
    {
      var a :| 0 <= a < n && order[a] == r;
      var b :| 0 <= b < |order| && order[b] == k;
      assert b >= n;
      assert ByLastRead(entries)(order[a], order[b]);
    }
  }

  class MemoryCache {
    const ttl: int
    var entries: map<string, Entry>
    var hits: nat
    var misses: nat

    constructor (ttlMinutes: int)
      ensures ttl == ttlMinutes * 60 && entries == map[] && hits == 0 && misses == 0
    {
      ttl := ttlMinutes * 60;
      entries := map[];
      hits := 0;
      misses := 0;
    }

    function State(): CacheState
      reads this
    {
      CacheState(entries, hits, misses)
    }

    method GetEntry(key: string, now: int) returns (r: Option<map<string, Json>>)
      modifies this
      ensures (r, State()) == Get(old(State()), key, now, ttl)
    {
      if key !in entries {
        misses := misses + 1;
        return None;
      }
      var item := entries[key];
      if now - item.timestamp > ttl {
        entries := entries - {key};
        misses := misses + 1;
        return None;
      }
      entries := entries[key := item.(lastAccessed := now)];
      hits := hits + 1;
      r := Some(item.data);
    }

    /** `set`; `full` is whether the size estimate is at or over the
        limit. The entry is stored after any eviction, so the new key is
        always present afterwards. */
    method SetEntry(key: string, data: map<string, Json>, now: int, full: bool) returns (ok: bool, ghost kept: map<string, Entry>)
      modifies this
      ensures ok
      ensures if full then EvictedOldest(old(entries), kept) else kept == old(entries)
      ensures entries == kept[key := Entry(data, now, now)]
      ensures hits == old(hits) && misses == old(misses)
    {
      if full {
        EvictOldest();
      }
      kept := entries;
      entries := entries[key := Entry(data, now, now)];
      ok := true;
    }

    method DeleteEntry(key: string) returns (r: bool)
      modifies this
      ensures (r, State()) == Delete(old(State()), key)
    {
      if key in entries {
        entries := entries - {key};
        return true;
      }
      r := false;
    }

    method Clear()
      modifies this
      ensures entries == map[] && hits == 0 && misses == 0
    {
      entries := map[];
      hits := 0;
      misses := 0;
    }

    /** The deletion loop of `_evict_oldest`. */
    method RemoveFirst(order: seq<string>, n: nat)
      requires n <= |order|
      modifies this
      ensures entries == WithoutFirst(old(entries), order, n)
      ensures hits == old(hits) && misses == old(misses)
    {
      var i := 0;
      while i < n
        invariant 0 <= i <= n
        invariant entries == WithoutFirst(old(entries), order, i)
        invariant hits == old(hits) && misses == old(misses)
      {
        var key := order[i];
        if key in entries {
          entries := entries - {key};
        }
        WithoutFirstStep(old(entries), order, i);
        i := i + 1;
      }
    }

    /** `_evict_oldest`: sort the keys by last-read time and delete the
        first max(1, n // 4). */
    method EvictOldest()
      modifies this
      ensures EvictedOldest(old(entries), entries)
      ensures hits == old(hits) && misses == old(misses)
    {
      if entries == map[] {
        return;
      }
      var e := entries;
      var keys := Enumerate(e.Keys);
      var order := SortBy(keys, ByLastRead(e));
      ByLastReadIsPreorder(e);
      SortBySorted(keys, ByLastRead(e));
      PermutationDistinct(keys, order);
      var n := Max(1, |order| / 4);
      assert |order| == |e| by {
        assert |keys| == |e.Keys|;
      }
      RemoveFirst(order, n);
      EvictPrefixOldest(e, order, n);
    }
  }

  /** A set is immediately readable back, unless the TTL is negative. */
  lemma SetThenGet(s: CacheState, kept: map<string, Entry>, key: string, data: map<string, Json>, now: int, ttl: int)
    ensures Get(s.(entries := kept[key := Entry(data, now, now)]), key, now, ttl).0
         == if ttl >= 0 then Some(data) else None
  {
  }
}
