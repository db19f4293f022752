/** The memory layer of the `CacheManager` in src/lib/cache.ts and the
    `withCache` wrapper. Cached data is a JSON value; time is an explicit
    millisecond count. */
module Cache {
  import opened Common
  import opened Json

  datatype Entry = Entry(data: Json, timestamp: int, ttl: int)

  /** One hour, the default time to live. */
  const DefaultTtl := 60 * 60 * 1000

  /** `isExpired(entry)`: strictly older than its time to live. */
  predicate IsExpired(e: Entry, now: int) {
    now - e.timestamp > e.ttl
  }

  /** What `get(key)` finds in the memory layer at `now`. */
  function Lookup(memory: map<string, Entry>, key: string, now: int): (r: Option<Json>)
    ensures r.Some? <==> key in memory && !IsExpired(memory[key], now)
    ensures r.Some? ==> r.value == memory[key].data
  {
    if key in memory && !IsExpired(memory[key], now) then Some(memory[key].data) else None
  }

  class CacheManager {
    var memory: map<string, Entry>

    constructor ()
      ensures memory == map[]
    {
      memory := map[];
    }

    /** `get(key)`: the data of a live entry, else `null` (`None`). An
        expired entry is left in place. */
    method Get(key: string, now: int) returns (r: Option<Json>)
      ensures r == Lookup(memory, key, now)
    {
      if key in memory && !IsExpired(memory[key], now) {
        return Some(memory[key].data);
      }
      return None;
    }

    /** `set(key, data, ttl = DEFAULT_TTL)`. */
    method Set(key: string, data: Json, ttl: Option<int>, now: int)
      modifies this
      ensures memory == old(memory)[key := Entry(data, now, ttl.GetOr(DefaultTtl))]
    {
      memory := memory[key := Entry(data, now, ttl.GetOr(DefaultTtl))];
    }

    /** `remove(key)`. */
    method Remove(key: string)
      modifies this
      ensures memory == old(memory) - {key}
    {
      memory := memory - {key};
    }

    /** `clear()`. */
    method Clear()
      modifies this
      ensures memory == map[]
    {
      memory := map[];
    }

    /** `getStats().memorySize`. */
    method MemorySize() returns (n: nat)
      ensures n == |memory.Keys|
    {
      n := |memory.Keys|;
    }
  }

  /** A `get` after a `set` of the same key, no later than its time to
      live, returns the stored data; other keys are unaffected. */
  lemma Lookup_AfterSet(memory: map<string, Entry>, key: string, other: string, data: Json, ttl: int, t: int, now: int)
    requires now - t <= ttl && other != key
    ensures Lookup(memory[key := Entry(data, t, ttl)], key, now) == Some(data)
    ensures Lookup(memory[key := Entry(data, t, ttl)], other, now) == Lookup(memory, other, now)
  {}

  /** After `remove(key)` or `clear()` nothing is found for the key. */
  lemma Lookup_AfterRemove(memory: map<string, Entry>, key: string, other: string, now: int)
    requires other != key
    ensures Lookup(memory - {key}, key, now) == None
    ensures Lookup(memory - {key}, other, now) == Lookup(memory, other, now)
    ensures Lookup(map[], key, now) == None
  {}

  /** An entry found at `now` is found at every earlier moment after it was
      stored, and one expired at `now` stays expired. */
  lemma IsExpired_Monotone(e: Entry, now: int, later: int)
    requires now <= later
    ensures IsExpired(e, now) ==> IsExpired(e, later)
  {}

  /** `withCache(fn, getCacheKey, ttl)` for one call at `now`: `computed` is
      what `fn` would return. A truthy cached value is returned without
      calling `fn`; otherwise `fn` is called and its result stored. */
  method WithCache(c: CacheManager, key: string, computed: Json, ttl: Option<int>, now: int)
    returns (result: Json, called: bool)
    modifies c
    ensures var hit := Lookup(old(c.memory), key, now);
      if Truthy(hit) then result == hit.value && !called && c.memory == old(c.memory)
      else result == computed && called && c.memory == old(c.memory)[key := Entry(computed, now, ttl.GetOr(DefaultTtl))]
  {
    var cached := c.Get(key, now);
    if Truthy(cached) {
      return cached.value, false;
    }
    c.Set(key, computed, ttl, now);
    return computed, true;
  }

  /** A falsy result is stored but never served, so the next call computes
      again; a truthy one is served until it expires. */
  lemma WithCache_Falsy(memory: map<string, Entry>, key: string, computed: Json, ttl: int, t: int, later: int)
    ensures !Truthy(Some(computed)) ==> !Truthy(Lookup(memory[key := Entry(computed, t, ttl)], key, later))
    ensures Truthy(Some(computed)) && later - t <= ttl ==> Truthy(Lookup(memory[key := Entry(computed, t, ttl)], key, later))
  {}

  /** `generateCacheKey(...parts)`: the parts joined with colons. */
  function GenerateCacheKey(parts: seq<string>): (k: string)
    ensures parts != [] && (forall i :: 0 <= i < |parts| ==> ':' !in parts[i]) ==> Split(k, ':') == parts
  {
    if parts != [] && (forall i :: 0 <= i < |parts| ==> ':' !in parts[i]) then
      Split_Join_Parts(parts);
      Join(parts, ":")
    else
      Join(parts, ":")
  }

  /** Joining parts with no colon and splitting at colons gives them back,
      so distinct part lists give distinct keys. */
  lemma {:induction false} Split_Join_Parts(parts: seq<string>)
    requires parts != []
    requires forall i :: 0 <= i < |parts| ==> ':' !in parts[i]
    ensures Split(Join(parts, ":"), ':') == parts
  {
    Split_JoinParts(parts, ':');
  }
}
