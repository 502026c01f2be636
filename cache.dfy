/**
 * The TTL result cache (cache.py): a dictionary of entries that carry an expiry time,
 * plus hit and miss counters. The clock is the explicit parameter `now` (seconds); the
 * lock that serialises the operations is not modelled, each call runs alone.
 */
module Cache {
  import opened Common

  /** One stored response with its creation and expiry times. */
  datatype Entry<V> = Entry(value: V, expiresAt: real, createdAt: real)

  /** What `get_stats` reports. */
  datatype CacheStats = CacheStats(size: nat, hits: nat, misses: nat, hitRate: real, ttlSeconds: int)

  /** An entry is stale once the clock has reached its expiry time. */
  predicate Expired<V>(e: Entry<V>, now: real) { now >= e.expiresAt }

  /** The entries a sweep at time `now` keeps: exactly the ones not yet expired, unchanged. */
  function Unexpired<V>(m: map<string, Entry<V>>, now: real): (r: map<string, Entry<V>>)
    ensures forall k :: k in r <==> k in m && !Expired(m[k], now)
    ensures forall k :: k in r ==> r[k] == m[k]
  {
    map k | k in m && !Expired(m[k], now) :: m[k]
  }

  /** Hits as a percentage of all lookups, 0 before the first lookup. */
  function HitRate(hits: nat, misses: nat): (r: real)
    ensures hits + misses == 0 ==> r == 0.0
    ensures hits + misses > 0 ==> r * (hits + misses) as real == hits as real * 100.0
    ensures 0.0 <= r <= 100.0
  {
    if hits + misses > 0 then hits as real / (hits + misses) as real * 100.0 else 0.0
  }

  class SearchCache<V> {
    var entries: map<string, Entry<V>>
    const ttlSeconds: int
    var hits: nat
    var misses: nat
    /** The number of `Get` calls so far. */
    ghost var lookups: nat

    /** Every lookup was counted exactly once, and every entry lives for exactly the TTL. */
    ghost predicate Valid()
      reads this
    {
      && hits + misses == lookups
      && forall k :: k in entries ==> entries[k].expiresAt == entries[k].createdAt + ttlSeconds as real
    }

    constructor (ttlSeconds: int)
      ensures Valid()
      ensures entries == map[] && this.ttlSeconds == ttlSeconds
      ensures hits == 0 && misses == 0 && lookups == 0
    {
      entries := map[];
      this.ttlSeconds := ttlSeconds;
      hits, misses := 0, 0;
      lookups := 0;
    }

    /** A hit returns the value and leaves the map alone; a miss removes any stale entry. */
    method Get(key: string, now: real) returns (r: Option<V>)
      requires Valid()
      modifies this`entries, this`hits, this`misses, this`lookups
      ensures Valid() && lookups == old(lookups) + 1
      ensures key in old(entries) && !Expired(old(entries)[key], now) ==>
        && r == Some(old(entries)[key].value)
        && hits == old(hits) + 1 && misses == old(misses)
        && entries == old(entries)
      ensures !(key in old(entries) && !Expired(old(entries)[key], now)) ==>
        && r == None
        && hits == old(hits) && misses == old(misses) + 1
        && entries == old(entries) - {key}
    {
      lookups := lookups + 1;
      if key in entries {
        var entry := entries[key];
        if now < entry.expiresAt {
          hits := hits + 1;
          return Some(entry.value);
        } else {
          entries := entries - {key};
        }
      }
      misses := misses + 1;
      r := None;
    }

    /** Stores `value` under `key` until `now + ttl`, replacing any earlier entry. The two
        clock readings of `set` are taken as the one reading `now`. */
    method Set(key: string, value: V, now: real)
      requires Valid()
      modifies this`entries
      ensures Valid()
      ensures entries == old(entries)[key := Entry(value, now + ttlSeconds as real, now)]
    {
      entries := entries[key := Entry(value, now + ttlSeconds as real, now)];
    }

    /** Empties the cache and returns how many entries it held. */
    method Clear() returns (count: nat)
      requires Valid()
      modifies this`entries
      ensures Valid()
      ensures count == |old(entries)| && entries == map[]
    {
      count := |entries|;
      entries := map[];
    }

    /** `_clean_expired`: deletes, one key at a time, every entry expired at `now`. */
    method CleanExpired(now: real)
      requires Valid()
      modifies this`entries
      ensures Valid()
      ensures entries == Unexpired(old(entries), now)
    {
      var expiredKeys := set k | k in entries && Expired(entries[k], now);
      ghost var original := entries;
      while expiredKeys != {}
        invariant forall k :: k in entries <==> k in original && (!Expired(original[k], now) || k in expiredKeys)
        invariant forall k :: k in entries ==> entries[k] == original[k]
        invariant expiredKeys <= entries.Keys
        decreases expiredKeys
      {
        var k :| k in expiredKeys;
        entries := entries - {k};
        expiredKeys := expiredKeys - {k};
      }
      assert entries.Keys == Unexpired(original, now).Keys;
    }

    /** `size`: sweeps expired entries, then counts the ones that remain. */
    method Size(now: real) returns (n: nat)
      requires Valid()
      modifies this`entries
      ensures Valid()
      ensures entries == Unexpired(old(entries), now) && n == |entries|
    {
      CleanExpired(now);
      n := |entries|;
    }

    /** `get_stats`: the live size (after a sweep), the counters and the hit rate. */
    method GetStats(now: real) returns (stats: CacheStats)
      requires Valid()
      modifies this`entries
      ensures Valid()
      ensures entries == Unexpired(old(entries), now)
      ensures stats == CacheStats(|entries|, hits, misses, HitRate(hits, misses), ttlSeconds)
    {
      var rate := HitRate(hits, misses);
      var size := Size(now);
      stats := CacheStats(size, hits, misses, rate, ttlSeconds);
    }
  }

  /** A value stored at time `t` is returned by any lookup before `t + ttl`, as a hit. */
  method SetThenGet<V>(c: SearchCache<V>, key: string, value: V, t: real, later: real) returns (r: Option<V>)
    requires c.Valid() && later < t + c.ttlSeconds as real
    modifies c
    ensures c.Valid()
    ensures r == Some(value) && c.hits == old(c.hits) + 1 && c.misses == old(c.misses)
    ensures c.entries == old(c.entries)[key := Entry(value, t + c.ttlSeconds as real, t)]
  {
    c.Set(key, value, t);
    r := c.Get(key, later);
  }

  /** From `t + ttl` on, the lookup misses and the entry is gone. */
  method SetThenGetExpired<V>(c: SearchCache<V>, key: string, value: V, t: real, later: real) returns (r: Option<V>)
    requires c.Valid() && later >= t + c.ttlSeconds as real
    modifies c
    ensures c.Valid()
    ensures r == None && c.hits == old(c.hits) && c.misses == old(c.misses) + 1
    ensures key !in c.entries && c.entries == old(c.entries) - {key}
  {
    c.Set(key, value, t);
    r := c.Get(key, later);
  }

  /** Setting one key leaves every other key's entry as it was. */
  method SetKeepsOthers<V>(c: SearchCache<V>, key: string, value: V, t: real, other: string)
    requires c.Valid() && other != key
    modifies c
    ensures c.Valid()
    ensures other in c.entries <==> other in old(c.entries)
    ensures other in c.entries ==> c.entries[other] == old(c.entries)[other]
  {
    c.Set(key, value, t);
  }
}
