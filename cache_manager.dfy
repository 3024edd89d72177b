/** The in-memory store behind uploads and processing: a general cache of entries with
    a time to live, and a separate map of upload sessions. Entries are evicted lazily
    when read past their expiry and by a sweep. Times are milliseconds since the epoch
    and are passed in as `now` instead of being read from the clock. */
module Cache {
  import opened Wrappers
  import opened Types

  const MillisPerMinute: int := 60 * 1000
  const DefaultTtlMinutes: int := 60

  datatype CacheEntry<D> = CacheEntry(data: D, expiresAt: int)

  /** `now > expiresAt`: an entry is still served at the very millisecond it expires. */
  predicate Expired(expiresAt: int, now: int) {
    now > expiresAt
  }

  /** The value a read at `now` finds under `key`, given how to read a value's expiry. */
  function Live<V>(m: map<string, V>, key: string, now: int, expiry: V -> int): (r: Option<V>)
    ensures r.Some? <==> key in m && !Expired(expiry(m[key]), now)
    ensures r.Some? ==> r.value == m[key]
  {
    if key in m && !Expired(expiry(m[key]), now) then Some(m[key]) else None
  }

  /** The map after that read: an expired entry under `key` is dropped, nothing else. */
  function AfterRead<V>(m: map<string, V>, key: string, now: int, expiry: V -> int): (r: map<string, V>)
    ensures forall k :: k != key ==> (k in r <==> k in m)
    ensures forall k :: k in r ==> k in m && r[k] == m[k]
    ensures key in r <==> key in m && !Expired(expiry(m[key]), now)
  {
    if key in m && Expired(expiry(m[key]), now) then m - {key} else m
  }

  /** The map after a sweep at `now`: exactly the unexpired entries. */
  function Unexpired<V>(m: map<string, V>, now: int, expiry: V -> int): (r: map<string, V>)
    ensures forall k :: k in r <==> k in m && !Expired(expiry(m[k]), now)
    ensures forall k :: k in r ==> r[k] == m[k]
  {
    map k | k in m && !Expired(expiry(m[k]), now) :: m[k]
  }

  function EntryExpiry<D>(e: CacheEntry<D>): int {
    e.expiresAt
  }

  function SessionExpiry(s: SessionData): int {
    s.expiresAt
  }

  /** What `get(key)` returns at `now`. */
  function CachedData<D>(cache: map<string, CacheEntry<D>>, key: string, now: int): Option<D> {
    var e := Live(cache, key, now, EntryExpiry);
    if e.Some? then Some(e.value.data) else None
  }

  /** A value stored with a time to live of `ttl` minutes at `t` is read back at any
      moment up to and including `t + ttl` minutes, and not after. */
  lemma {:induction false} SetThenGet<D>(cache: map<string, CacheEntry<D>>, key: string, data: D,
                                         ttl: int, t: int, now: int)
    ensures var stored := cache[key := CacheEntry(data, t + ttl * MillisPerMinute)];
            CachedData(stored, key, now) == (if now <= t + ttl * MillisPerMinute then Some(data) else None)
  {
    var stored := cache[key := CacheEntry(data, t + ttl * MillisPerMinute)];
    assert stored[key] == CacheEntry(data, t + ttl * MillisPerMinute);
  }

  /** A second store under the same key replaces both the data and the expiry. */
  lemma SetOverwrites<D>(cache: map<string, CacheEntry<D>>, key: string, d1: D, e1: int, d2: D, e2: int)
    ensures cache[key := CacheEntry(d1, e1)][key := CacheEntry(d2, e2)] == cache[key := CacheEntry(d2, e2)]
  {
  }

  /** Sweeping twice at the same moment changes nothing more. */
  lemma {:induction false} SweepIdempotent<V>(m: map<string, V>, now: int, expiry: V -> int)
    ensures Unexpired(Unexpired(m, now, expiry), now, expiry) == Unexpired(m, now, expiry)
  {
    var once := Unexpired(m, now, expiry);
    var twice := Unexpired(once, now, expiry);
    assert twice.Keys == once.Keys;
  }

  /** After a sweep, a read at the same moment finds what it would have found before,
      and the sweep leaves nothing that such a read would drop. */
  lemma {:induction false} SweepKeepsReads<V>(m: map<string, V>, key: string, now: int, expiry: V -> int)
    ensures Live(Unexpired(m, now, expiry), key, now, expiry) == Live(m, key, now, expiry)
    ensures AfterRead(Unexpired(m, now, expiry), key, now, expiry) == Unexpired(m, now, expiry)
  {
    var swept := Unexpired(m, now, expiry);
    if key in m && !Expired(expiry(m[key]), now) {
      assert swept[key] == m[key];
    }
  }

  class CacheManager<D> {
    var cache: map<string, CacheEntry<D>>
    var sessions: map<string, SessionData>

    constructor()
      ensures cache == map[] && sessions == map[]
    {
      cache := map[];
      sessions := map[];
    }

    /** `set(key, data, ttlMinutes)`; the source's default time to live is `DefaultTtlMinutes`. */
    method Set(key: string, data: D, ttlMinutes: int, now: int)
      modifies this
      ensures cache == old(cache)[key := CacheEntry(data, now + ttlMinutes * MillisPerMinute)]
      ensures sessions == old(sessions)
    {
      var expiresAt := now + ttlMinutes * MillisPerMinute;
      cache := cache[key := CacheEntry(data, expiresAt)];
    }

    method Get(key: string, now: int) returns (r: Option<D>)
      modifies this
      ensures r == CachedData(old(cache), key, now)
      ensures cache == AfterRead(old(cache), key, now, EntryExpiry)
      ensures sessions == old(sessions)
    {
      if key !in cache {
        return None;
      }
      var entry := cache[key];
      if now > entry.expiresAt {
        cache := cache - {key};
        return None;
      }
      return Some(entry.data);
    }

    method Delete(key: string)
      modifies this
      ensures cache == old(cache) - {key}
      ensures sessions == old(sessions)
    {
      cache := cache - {key};
    }

    method SetSession(sessionId: string, data: SessionData)
      modifies this
      ensures sessions == old(sessions)[sessionId := data]
      ensures cache == old(cache)
    {
      sessions := sessions[sessionId := data];
    }

    method GetSession(sessionId: string, now: int) returns (r: Option<SessionData>)
      modifies this
      ensures r == Live(old(sessions), sessionId, now, SessionExpiry)
      ensures sessions == AfterRead(old(sessions), sessionId, now, SessionExpiry)
      ensures cache == old(cache)
    {
      if sessionId !in sessions {
        return None;
      }
      var session := sessions[sessionId];
      if now > session.expiresAt {
        sessions := sessions - {sessionId};
        return None;
      }
      return Some(session);
    }

    method DeleteSession(sessionId: string)
      modifies this
      ensures sessions == old(sessions) - {sessionId}
      ensures cache == old(cache)
    {
      sessions := sessions - {sessionId};
    }

    /** The periodic sweep: both maps keep exactly their unexpired entries. */
    method ClearExpired(now: int)
      modifies this
      ensures cache == Unexpired(old(cache), now, EntryExpiry)
      ensures sessions == Unexpired(old(sessions), now, SessionExpiry)
    {
      cache := SweepEntries(cache, now, EntryExpiry);
      sessions := SweepEntries(sessions, now, SessionExpiry);
    }

    method Clear()
      modifies this
      ensures cache == map[] && sessions == map[]
    {
      cache := map[];
      sessions := map[];
    }
  }

  /** One sweep loop: every key is visited once and deleted when its entry has expired. */
  method SweepEntries<V>(m: map<string, V>, now: int, expiry: V -> int) returns (r: map<string, V>)
    ensures r == Unexpired(m, now, expiry)
  {
    r := m;
    var unvisited := m.Keys;
    while unvisited != {}
      invariant unvisited <= m.Keys
      invariant forall k :: k in r <==> k in m && (k in unvisited || !Expired(expiry(m[k]), now))
      invariant forall k :: k in r ==> r[k] == m[k]
      decreases |unvisited|
    {
      var key :| key in unvisited;
      if now > expiry(m[key]) {
        r := r - {key};
      }
      unvisited := unvisited - {key};
    }
    assert r.Keys == Unexpired(m, now, expiry).Keys;
  }
}
