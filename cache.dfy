/**
 * The browser cache helper: records `{data, timestamp, ttl}` kept under string keys,
 * expired lazily when read. Browser storage is the map `store`; the clock is the
 * `now` argument (milliseconds, as `Date.now()` returns).
 */
module Cache {
  import opened Wrappers

  /** Ten minutes, the lifetime used when the caller gives none. */
  const DefaultTtl: int := 600000

  datatype Record<D> = Record(data: D, timestamp: int, ttl: int)

  /** A record is expired once strictly more than `ttl` milliseconds have passed. */
  predicate Expired<D>(r: Record<D>, now: int)
  {
    now - r.timestamp > r.ttl
  }

  /** What `getCache(key)` returns. */
  function Lookup<D>(store: map<string, Record<D>>, key: string, now: int): Option<D>
  {
    if key !in store || Expired(store[key], now) then None else Some(store[key].data)
  }

  /** The store after `getCache(key)`: an expired record is removed. */
  function AfterLookup<D>(store: map<string, Record<D>>, key: string, now: int): map<string, Record<D>>
  {
    if key in store && Expired(store[key], now) then store - {key} else store
  }

  /** A value read at the instant it is written comes back, for any non-negative lifetime. */
  lemma SetThenGet<D>(store: map<string, Record<D>>, key: string, data: D, now: int, ttl: int)
    requires ttl >= 0
    ensures Lookup(store[key := Record(data, now, ttl)], key, now) == Some(data)
    ensures AfterLookup(store[key := Record(data, now, ttl)], key, now) == store[key := Record(data, now, ttl)]
  {
  }

  /** The record is still served exactly `ttl` milliseconds after it was written, and gone one millisecond later. */
  lemma InclusiveBoundary<D>(store: map<string, Record<D>>, key: string, data: D, t: int, ttl: int)
    ensures Lookup(store[key := Record(data, t, ttl)], key, t + ttl) == Some(data)
    ensures Lookup(store[key := Record(data, t, ttl)], key, t + ttl + 1) == None
  {
  }

  /** A value is served at `now` exactly when it is still served at every earlier time from its timestamp on. */
  lemma FreshEarlier<D>(store: map<string, Record<D>>, key: string, earlier: int, now: int)
    requires key in store && store[key].timestamp <= earlier <= now
    requires Lookup(store, key, now).Some?
    ensures Lookup(store, key, earlier) == Lookup(store, key, now)
  {
  }

  /** An expired read deletes the key, so every later read also returns nothing. */
  lemma ExpiredStaysGone<D>(store: map<string, Record<D>>, key: string, now: int, later: int)
    requires key in store && Expired(store[key], now)
    ensures Lookup(store, key, now) == None
    ensures key !in AfterLookup(store, key, now)
    ensures Lookup(AfterLookup(store, key, now), key, later) == None
  {
  }

  /** A read touches no other key. */
  lemma ReadIsolated<D>(store: map<string, Record<D>>, key: string, other: string, now: int)
    requires other != key
    ensures other in AfterLookup(store, key, now) <==> other in store
    ensures other in store ==> AfterLookup(store, key, now)[other] == store[other]
    ensures Lookup(AfterLookup(store, key, now), other, now) == Lookup(store, other, now)
  {
  }

  class Cache<D> {
    var store: map<string, Record<D>>

    constructor (initial: map<string, Record<D>>)
      ensures store == initial
    {
      store := initial;
    }

    /** `setCache(key, data, ttl = 600000)` at time `now`. */
    method SetCache(key: string, data: D, now: int, ttl: Option<int>)
      modifies this
      ensures store == old(store)[key := Record(data, now, ttl.GetOr(DefaultTtl))]
    {
      store := store[key := Record(data, now, ttl.GetOr(DefaultTtl))];
    }

    /** `getCache(key)` at time `now`. */
    method GetCache(key: string, now: int) returns (r: Option<D>)
      modifies this
      ensures r == Lookup(old(store), key, now)
      ensures store == AfterLookup(old(store), key, now)
    {
      if key !in store {
        return None;
      }
      var record := store[key];
      if now - record.timestamp > record.ttl {
        store := store - {key};
        return None;
      }
      return Some(record.data);
    }
  }
}
