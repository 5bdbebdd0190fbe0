/** The session cache of `src/utils/helpers.py`: `CacheManager` keeps
    `{data, timestamp}` entries in the session's `cache` dict, which may
    not exist yet; `cached_function` wraps a function with it. The clock
    (`time.time()`) is a parameter, and the md5 cache key is given as a
    plain key. */
module SessionCache {
  import opened Common
  import opened Text

  /** One cached entry: the data and the time it was stored. */
  datatype Entry<V> = Entry(data: V, timestamp: real)

  type Cache<V> = map<string, Entry<V>>

  /** `is_cache_valid`: an entry is valid while it is strictly younger than
      the time to live. */
  predicate IsCacheValid(ttl: real, now: real, timestamp: real) {
    now - timestamp < ttl
  }

  /** The cache after `cache_data(key, data)` at time `now`: created when
      missing, the key (re)written. */
  function Stored<V>(c: Option<Cache<V>>, key: string, data: V, now: real): (r: Cache<V>)
    ensures key in r && r[key] == Entry(data, now)
    ensures forall k :: k != key ==> (k in r <==> c.Some? && k in c.value)
    ensures forall k :: k != key && k in r ==> r[k] == c.value[k]
  {
    (if c.None? then map[] else c.value)[key := Entry(data, now)]
  }

  /** What `get_cached_data` returns (None for a miss) and the cache it
      leaves. */
  datatype Lookup<V> = Lookup(result: Option<V>, cache: Option<Cache<V>>)

  /** `get_cached_data(key)`: the data of a valid entry; an expired entry
      is deleted and reads as a miss; a missing key (or cache) is a miss
      and changes nothing. */
  function Looked<V>(c: Option<Cache<V>>, ttl: real, key: string, now: real): Lookup<V> {
    if c.None? || key !in c.value then Lookup(None, c)
    else if IsCacheValid(ttl, now, c.value[key].timestamp) then Lookup(Some(c.value[key].data), c)
    else Lookup(None, Some(c.value - {key}))
  }

  /** `clear_cache(pattern)`: no cache, no change; no pattern empties it;
      otherwise the keys containing the pattern are removed. */
  function Cleared<V>(c: Option<Cache<V>>, pattern: Option<string>): Option<Cache<V>> {
    if c.None? then None
    else if pattern.None? then Some(map[])
    else Some(map k | k in c.value && !IsSubstring(pattern.value, k) :: c.value[k])
  }

  /** A stored entry reads back until its time to live is over, and is
      deleted on the first read after that. */
  lemma StoreThenLookup<V>(c: Option<Cache<V>>, ttl: real, key: string, data: V, stored: real, now: real)
    ensures var s := Stored(c, key, data, stored);
      var l := Looked(Some(s), ttl, key, now);
      && (now - stored < ttl ==> l.result == Some(data) && l.cache == Some(s))
      && (now - stored >= ttl ==> l.result == None && l.cache == Some(s - {key}) && key !in l.cache.value)
  {
  }

  /** Storing one key leaves the lookup of every other key as it was. */
  lemma StoreOtherKey<V>(c: Cache<V>, ttl: real, key: string, other: string, data: V, stored: real, now: real)
    requires other != key
    ensures Looked(Some(Stored(Some(c), key, data, stored)), ttl, other, now).result
         == Looked(Some(c), ttl, other, now).result
  {
  }

  /** A lookup never adds a key, and removes at most the key looked up. */
  lemma LookedKeys<V>(c: Cache<V>, ttl: real, key: string, now: real)
    ensures var l := Looked(Some(c), ttl, key, now);
      && l.cache.Some?
      && l.cache.value.Keys <= c.Keys
      && c.Keys - l.cache.value.Keys <= {key}
      && (l.result.Some? <==> key in c && IsCacheValid(ttl, now, c[key].timestamp))
  {
  }

  /** Clearing with a pattern removes exactly the keys containing it and
      keeps the entries of the others. */
  lemma ClearedSpec<V>(c: Cache<V>, pattern: string, k: string)
    ensures var r := Cleared(Some(c), Some(pattern)).value;
      && (k in r <==> k in c && !IsSubstring(pattern, k))
      && (k in r ==> r[k] == c[k])
  {
  }

  /** The empty pattern is in every key, so it clears the whole cache. */
  lemma {:induction false} EmptyPatternEverywhere(k: string)
    ensures IsSubstring("", k)
  {
  }

  lemma ClearEmptyPattern<V>(c: Cache<V>)
    ensures Cleared(Some(c), Some("")) == Some(map[])
  {
    forall k | k in c ensures IsSubstring("", k) {
      EmptyPatternEverywhere(k);
    }
  }

  /** The session state, as far as the cache goes: `st.session_state['cache']`,
      None while no entry has been stored. */
  class Session<V> {
    var cache: Option<Cache<V>>

    constructor ()
      ensures cache.None?
    {
      cache := None;
    }

    /** `cache_data(key, data)`. */
    method CacheData(key: string, data: V, now: real)
      modifies this
      ensures cache == Some(Stored(old(cache), key, data, now))
    {
      var c := if cache.None? then map[] else cache.value;
      cache := Some(c[key := Entry(data, now)]);
    }

    /** `get_cached_data(key)`. */
    method GetCachedData(ttl: real, key: string, now: real) returns (r: Option<V>)
      modifies this
      ensures r == Looked(old(cache), ttl, key, now).result
      ensures cache == Looked(old(cache), ttl, key, now).cache
    {
      if cache.None? || key !in cache.value {
        return None;
      }
      var item := cache.value[key];
      if IsCacheValid(ttl, now, item.timestamp) {
        return Some(item.data);
      }
      cache := Some(cache.value - {key});
      return None;
    }

    /** `clear_cache(pattern)`: the keys to remove are collected first and
        then deleted one by one. */
    method ClearCache(pattern: Option<string>)
      modifies this
      ensures cache == Cleared(old(cache), pattern)
    {
      if cache.None? {
        return;
      }
      if pattern.None? {
        cache := Some(map[]);
        return;
      }
      var c := cache.value;
      var toRemove := set k | k in c && IsSubstring(pattern.value, k);
      var remaining := toRemove;
      var m := c;
      while remaining != {}
        invariant remaining <= toRemove
        invariant m == map k | k in c && (k !in toRemove || k in remaining) :: c[k]
        decreases |remaining|
      {
        var k :| k in remaining;
        m := m - {k};
        remaining := remaining - {k};
      }
      assert forall k :: k in m <==> k in c && !IsSubstring(pattern.value, k);
      assert m == map k | k in c && !IsSubstring(pattern.value, k) :: c[k];
      cache := Some(m);
    }
  }

  /** The wrapper `cached_function` builds, for a function whose results
      may be None: a cached result that is not None is returned without
      calling the function; a miss, or a cached None, calls it and caches
      its result. Reading and writing the clock are two parameters. */
  method CachedCall<A, V>(s: Session<Option<V>>, ttl: real, key: string, f: A -> Option<V>, args: A,
                          readTime: real, writeTime: real) returns (r: Option<V>)
    modifies s
    ensures var look := Looked(old(s.cache), ttl, key, readTime);
      if look.result.Some? && look.result.value.Some? then
        r == look.result.value && s.cache == look.cache
      else
        r == f(args) && s.cache == Some(Stored(look.cache, key, r, writeTime))
  {
    var cached := s.GetCachedData(ttl, key, readTime);
    if cached.Some? && cached.value.Some? {
      return cached.value;
    }
    r := f(args);
    s.CacheData(key, r, writeTime);
  }
}
