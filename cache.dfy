/** The in-memory TTL cache of the blog backend (`SimpleCache`).

    Each key maps to an entry holding the stored value and the instant it
    expires. The clock is an explicit argument `now` (whole seconds) in place of
    `datetime.now()`. An entry is still valid at `now == expiresAt`; it is expired
    only once `now > expiresAt`. Expiry is lazy: `Get` removes the one key it finds
    expired, `CleanupExpired` removes every expired key. */
module Cache {
  import opened Wrappers

  /** One cache record. The Python `set` also stores `created_at`, which is never read. */
  datatype Entry<V> = Entry(value: V, expiresAt: int)

  /** The figures `stats` reports. */
  datatype CacheStats = CacheStats(totalEntries: nat, validEntries: nat, expiredEntries: nat)

  /** The expiry test shared by `get`, `cleanup_expired` and `stats`. */
  predicate Expired<V>(e: Entry<V>, now: int) {
    now > e.expiresAt
  }

  /** The value `get` returns on a cache with contents `m`. */
  function Lookup<V>(m: map<string, Entry<V>>, key: string, now: int): Option<V> {
    if key in m && !Expired(m[key], now) then Some(m[key].value) else None
  }

  /** The contents after `get`: the looked-up key is dropped if it has expired. */
  function EvictIfExpired<V>(m: map<string, Entry<V>>, key: string, now: int): map<string, Entry<V>> {
    if key in m && Expired(m[key], now) then m - {key} else m
  }

  /** The keys whose entries have expired at `now`. */
  function ExpiredKeys<V>(m: map<string, Entry<V>>, now: int): set<string> {
    set k | k in m && Expired(m[k], now)
  }

  /** The keys whose entries are still valid at `now`. */
  function ValidKeys<V>(m: map<string, Entry<V>>, now: int): set<string> {
    set k | k in m && !Expired(m[k], now)
  }

  /** The entries still valid at `now`, unchanged. */
  function Unexpired<V>(m: map<string, Entry<V>>, now: int): map<string, Entry<V>> {
    map k | k in m && !Expired(m[k], now) :: m[k]
  }

  /** Every key is either valid or expired, never both. */
  lemma {:induction false} KeysPartition<V>(m: map<string, Entry<V>>, now: int)
    ensures ValidKeys(m, now) + ExpiredKeys(m, now) == m.Keys
    ensures ValidKeys(m, now) !! ExpiredKeys(m, now)
    ensures |ValidKeys(m, now)| + |ExpiredKeys(m, now)| == |m|
  {
    var valid, expired := ValidKeys(m, now), ExpiredKeys(m, now);
    assert valid + expired == m.Keys;
    assert |valid + expired| == |valid| + |expired|;
  }

  /** The figures `stats` is specified to report on contents `m` at `now`. */
  function StatsOf<V>(m: map<string, Entry<V>>, now: int): (s: CacheStats)
    ensures s.totalEntries == |m|
    ensures s.validEntries == |ValidKeys(m, now)|
    ensures s.validEntries + s.expiredEntries == s.totalEntries
    ensures s.expiredEntries == |ExpiredKeys(m, now)|
  {
    KeysPartition(m, now);
    CacheStats(|m|, |ValidKeys(m, now)|, |m| - |ValidKeys(m, now)|)
  }

  /** Cleaning up removes exactly the expired keys, so the number removed is their count. */
  lemma CleanupRemovesExpired<V>(m: map<string, Entry<V>>, now: int)
    ensures Unexpired(m, now).Keys == m.Keys - ExpiredKeys(m, now)
    ensures |m| - |Unexpired(m, now)| == |ExpiredKeys(m, now)|
  {
    KeysPartition(m, now);
    assert Unexpired(m, now).Keys == ValidKeys(m, now);
  }

  /** An entry expired at one instant is still expired later, so the expired count only grows. */
  lemma {:induction false} ExpiredKeysMonotone<V>(m: map<string, Entry<V>>, earlier: int, later: int)
    requires earlier <= later
    ensures ExpiredKeys(m, earlier) <= ExpiredKeys(m, later)
    ensures |ExpiredKeys(m, earlier)| <= |ExpiredKeys(m, later)|
  {
    var a, b := ExpiredKeys(m, earlier), ExpiredKeys(m, later);
    assert a <= b;
    assert b == a + (b - a);
    assert |b| == |a| + |b - a|;
  }

  /** An immediate `get` after `set` with a non-negative TTL, at the same instant,
      returns the value just stored and leaves the contents as `set` left them. */
  lemma GetAfterSet<V>(m: map<string, Entry<V>>, key: string, value: V, now: int, ttl: int)
    requires ttl >= 0
    ensures Lookup(m[key := Entry(value, now + ttl)], key, now) == Some(value)
    ensures EvictIfExpired(m[key := Entry(value, now + ttl)], key, now) == m[key := Entry(value, now + ttl)]
  {
  }

  /** With a negative TTL the entry is born expired: the next `get` misses and removes it. */
  lemma GetAfterSetNegativeTtl<V>(m: map<string, Entry<V>>, key: string, value: V, now: int, ttl: int)
    requires ttl < 0
    ensures Lookup(m[key := Entry(value, now + ttl)], key, now) == None
    ensures EvictIfExpired(m[key := Entry(value, now + ttl)], key, now) == m - {key}
  {
  }

  /** `SimpleCache`: a dictionary from keys to entries plus the TTL used when `set` is given none. */
  class SimpleCache<V> {
    var entries: map<string, Entry<V>>
    const defaultTtl: int

    /** `SimpleCache(default_ttl=300)`: an empty cache. */
    constructor (defaultTtl: int := 300)
      ensures entries == map[] && this.defaultTtl == defaultTtl
    {
      entries := map[];
      this.defaultTtl := defaultTtl;
    }

    /** `get`: the stored value if present and not expired; an expired entry is
        removed on the way. */
    method Get(key: string, now: int) returns (r: Option<V>)
      modifies this
      ensures key !in old(entries) ==> r == None && entries == old(entries)
      ensures key in old(entries) && Expired(old(entries)[key], now) ==>
                r == None && entries == old(entries) - {key}
      ensures key in old(entries) && !Expired(old(entries)[key], now) ==>
                r == Some(old(entries)[key].value) && entries == old(entries)
      ensures r == Lookup(old(entries), key, now)
      ensures entries == EvictIfExpired(old(entries), key, now)
    {
      if key !in entries {
        return None;
      }
      var item := entries[key];
      if now > item.expiresAt {
        entries := entries - {key};
        return None;
      }
      r := Some(item.value);
    }

    /** `set`: store `value` under `key`, expiring `ttl` seconds from `now`
        (`defaultTtl` when no TTL is given), replacing any earlier entry. */
    method Set(key: string, value: V, now: int, ttl: Option<int> := None)
      modifies this
      ensures entries == old(entries)[key := Entry(value, now + ttl.GetOr(defaultTtl))]
      ensures forall k :: k in old(entries) && k != key ==> k in entries && entries[k] == old(entries)[k]
    {
      var seconds := if ttl.None? then defaultTtl else ttl.value;
      entries := entries[key := Entry(value, now + seconds)];
    }

    /** `delete`: remove `key`, reporting whether it was there. */
    method Delete(key: string) returns (found: bool)
      modifies this
      ensures found <==> key in old(entries)
      ensures entries == old(entries) - {key}
    {
      if key in entries {
        entries := entries - {key};
        return true;
      }
      return false;
    }

    /** `clear`: drop every entry. */
    method Clear()
      modifies this
      ensures entries == map[]
    {
      entries := map[];
    }

    /** `cleanup_expired`: collect the expired keys, delete them one by one and
        return how many there were. */
    method CleanupExpired(now: int) returns (count: nat)
      modifies this
      ensures entries == Unexpired(old(entries), now)
      ensures count == |ExpiredKeys(old(entries), now)|
      ensures count == |old(entries)| - |entries|
    {
      var expiredKeys := set k | k in entries && now > entries[k].expiresAt;
      var remaining := expiredKeys;
      while remaining != {}
        invariant remaining <= expiredKeys
        invariant entries == old(entries) - (expiredKeys - remaining)
        decreases remaining
      {
        var k :| k in remaining;
        entries := entries - {k};
        remaining := remaining - {k};
      }
      assert expiredKeys == ExpiredKeys(old(entries), now);
      CleanupRemovesExpired(old(entries), now);
      count := |expiredKeys|;
    }

    /** `stats`: count the entries still valid at `now`; the rest are expired.
        The cache is not changed. */
    method Stats(now: int) returns (s: CacheStats)
      ensures s.totalEntries == |entries|
      ensures s.validEntries == |ValidKeys(entries, now)|
      ensures s.expiredEntries == |ExpiredKeys(entries, now)|
      ensures s == StatsOf(entries, now)
    {
      var valid := 0;
      var todo := entries.Keys;
      while todo != {}
        invariant todo <= entries.Keys
        invariant valid == |ValidKeys(entries, now) - todo|
        decreases todo
      {
        var k :| k in todo;
        if now <= entries[k].expiresAt {
          assert ValidKeys(entries, now) - (todo - {k}) == (ValidKeys(entries, now) - todo) + {k};
          valid := valid + 1;
        } else {
          assert ValidKeys(entries, now) - (todo - {k}) == ValidKeys(entries, now) - todo;
        }
        todo := todo - {k};
      }
      KeysPartition(entries, now);
      s := CacheStats(|entries|, valid, |entries| - valid);
    }
  }
}
