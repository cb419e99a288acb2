/** `RedisStore` (src/middlewares/session.ts): `set`, `get` and `delete` over
    an in-memory keyed map standing for the Redis keyspace. */
module Store {
  import opened Wrappers

  /** A stored value and the `PX` expiry (milliseconds) it was written with. */
  datatype Entry<V> = Entry(value: V, px: Option<int>)

  /** `if (maxAge)`: a truthy TTL, any non-zero number, is sent as a `PX`
      expiry; `0` or an absent TTL writes the key with no expiry. */
  function Expiry(ttl: Option<int>): (px: Option<int>)
    ensures px.Some? <==> ttl.Some? && ttl.value != 0
    ensures px.Some? ==> px == ttl
  {
    if ttl.Some? && ttl.value != 0 then ttl else None
  }

  /** The keyspace after `set(key, value, ttl)`. */
  function Stored<V>(m: map<string, Entry<V>>, key: string, value: V, ttl: Option<int>): (r: map<string, Entry<V>>)
    ensures r.Keys == m.Keys + {key}
    ensures r[key].value == value && r[key].px == Expiry(ttl)
    ensures forall k :: k in m && k != key ==> r[k] == m[k]
  {
    m[key := Entry(value, Expiry(ttl))]
  }

  /** What `get(key)` yields: the value last set under `key`, or nothing. */
  function Fetched<V>(m: map<string, Entry<V>>, key: string): (r: Option<V>)
    ensures r.Some? <==> key in m
    ensures r.Some? ==> r.value == m[key].value
  {
    if key in m then Some(m[key].value) else None
  }

  /** The keyspace after `delete(pattern)`: `KEYS pattern`, then `DEL` of what
      it listed when the list is not empty. */
  function Purged<V>(m: map<string, Entry<V>>, pattern: string, matches: (string, string) -> bool): (r: map<string, Entry<V>>)
    ensures forall k :: k in r <==> k in m && !matches(k, pattern)
    ensures forall k :: k in r ==> r[k] == m[k]
  {
    var listed := set k | k in m && matches(k, pattern);
    if listed == {} then
      assert forall k :: k in m ==> (k in listed <==> matches(k, pattern));
      m
    else map k | k in m && k !in listed :: m[k]
  }

  class RedisStore<V> {
    const prefix: string
    var entries: map<string, Entry<V>>

    /** A store over a keyspace that already holds `contents`. */
    constructor (prefix: string, contents: map<string, Entry<V>>)
      ensures this.prefix == prefix && entries == contents
    {
      this.prefix := prefix;
      entries := contents;
    }

    method Set(key: string, value: V, ttl: Option<int>)
      modifies this
      ensures entries == Stored(old(entries), key, value, ttl)
    {
      if ttl.Some? && ttl.value != 0 {
        entries := entries[key := Entry(value, ttl)];
      } else {
        entries := entries[key := Entry(value, None)];
      }
    }

    function Get(key: string): (r: Option<V>)
      reads this
      ensures r.Some? <==> key in entries
      ensures r.Some? ==> r.value == entries[key].value
    {
      Fetched(entries, key)
    }

    /** `matches(key, pattern)` stands for Redis's `KEYS` glob matching. */
    method Delete(pattern: string, matches: (string, string) -> bool)
      modifies this
      ensures entries == Purged(old(entries), pattern, matches)
    {
      var listed := set k | k in entries && matches(k, pattern);
      if listed != {} {
        entries := map k | k in entries && k !in listed :: entries[k];
      }
    }
  }
}

/** Properties of the store's map semantics. */
module StoreFacts {
  import opened Wrappers
  import opened Store

  /** `get` returns the value last set under the key, and a `set` leaves
      every other key as it was. */
  lemma GetAfterSet<V>(m: map<string, Entry<V>>, key: string, value: V, ttl: Option<int>, other: string)
    requires other != key
    ensures Fetched(Stored(m, key, value, ttl), key) == Some(value)
    ensures Fetched(Stored(m, key, value, ttl), other) == Fetched(m, other)
  {
  }

  /** A `set` with TTL 0 records no expiry, and one with a non-zero TTL records it. */
  lemma SetExpiry<V>(m: map<string, Entry<V>>, key: string, value: V, ms: int)
    ensures Stored(m, key, value, Some(0))[key].px == None
    ensures Stored(m, key, value, None)[key].px == None
    ensures ms != 0 ==> Stored(m, key, value, Some(ms))[key].px == Some(ms)
  {
  }

  /** `delete` with a pattern that matches no key is a no-op. */
  lemma DeleteNoMatch<V>(m: map<string, Entry<V>>, pattern: string, matches: (string, string) -> bool)
    requires forall k :: k in m ==> !matches(k, pattern)
    ensures Purged(m, pattern, matches) == m
  {
  }
}
