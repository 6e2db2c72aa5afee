/** The single node-cache instance of the service. Fund records and the upstream
    API key share its one keyspace. Time is the process clock in milliseconds;
    a TTL is given in seconds, as node-cache takes it. */
module TtlCache {
  import opened JsValues

  /** A TTL as the service passes it: a positive number of seconds. */
  type Seconds = n: nat | n > 0 witness 1

  /** A stored value and the last instant at which node-cache still serves it. */
  datatype Entry = Entry(value: Json, expiresAt: int)

  type Entries = map<string, Entry>

  /** `cache.get(key)`: the stored value, or `undefined` (None) when the key was
      never set or its expiry instant lies before `now`. */
  function Lookup(es: Entries, now: int, key: string): (r: Option<Json>)
  {
    if key in es && now <= es[key].expiresAt then Some(es[key].value) else None
  }

  /** `cache.set(key, v, ttl)` at instant `now`: replaces whatever `key` held.
      The new value is served until `ttl` seconds have passed and is absent
      afterwards; every other key reads exactly as before. */
  function Put(es: Entries, now: int, key: string, v: Json, ttl: Seconds): (r: Entries)
    ensures forall t :: now <= t ==> (Lookup(r, t, key) == Some(v) <==> t <= now + 1000 * ttl)
    ensures forall t :: now + 1000 * ttl < t ==> Lookup(r, t, key) == None
    ensures forall k, t :: k != key ==> Lookup(r, t, k) == Lookup(es, t, k)
    ensures r.Keys == es.Keys + {key}
  {
    es[key := Entry(v, now + 1000 * ttl)]
  }

  /** node-cache's periodic check: drops every entry that has expired by `now`.
      Since the clock only moves forward, the sweep is invisible to lookups. */
  function Sweep(es: Entries, now: int): (r: Entries)
    ensures r.Keys <= es.Keys
    ensures forall k :: k in r ==> now <= r[k].expiresAt
    ensures forall k, t :: now <= t ==> Lookup(r, t, k) == Lookup(es, t, k)
  {
    map k | k in es && now <= es[k].expiresAt :: es[k]
  }

  /** The node-cache object: its entries and the clock it reads. */
  class NodeCache {
    var entries: Entries
    var now: int

    /** `new NodeCache(...)`: an empty cache at process start. */
    constructor (start: int)
      ensures entries == map[] && now == start
    {
      entries := map[];
      now := start;
    }

    /** `cache.set(key, v, ttl)`. */
    method Set(key: string, v: Json, ttl: Seconds)
      modifies this
      ensures entries == Put(old(entries), old(now), key, v, ttl)
      ensures now == old(now)
    {
      entries := entries[key := Entry(v, now + 1000 * ttl)];
    }

    /** `cache.get(key)`. */
    method Get(key: string) returns (r: Option<Json>)
      ensures r == Lookup(entries, now, key)
    {
      if key in entries && now <= entries[key].expiresAt {
        r := Some(entries[key].value);
      } else {
        r := None;
      }
    }

    /** The periodic expiry check. */
    method CheckExpired()
      modifies this
      ensures entries == Sweep(old(entries), old(now))
      ensures now == old(now)
    {
      entries := map k | k in entries && now <= entries[k].expiresAt :: entries[k];
    }

    /** Time passes. */
    method Advance(ms: nat)
      modifies this
      ensures entries == old(entries) && now == old(now) + ms
    {
      now := now + ms;
    }
  }
}
