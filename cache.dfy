/**
 * The time-bounded key/value store in front of Redis. The store itself is a
 * map from key to a value and the second at which it expires; the clock is an
 * explicit `now` in seconds. A store operation that fails (a transport error,
 * or a client that is not connected) is an oracle argument `fails`: a failed
 * read is a miss and a failed write changes nothing, and neither is reported
 * to the caller.
 */
module CacheStore {
  import opened Wrappers

  /** A stored value and the first second at which the store no longer returns it. */
  datatype Entry<V> = Entry(value: V, expiresAt: int)

  /** The value a read of `key` at `now` returns. */
  function Lookup<V>(entries: map<string, Entry<V>>, key: string, now: int, fails: bool): Option<V> {
    if !fails && key in entries && now < entries[key].expiresAt then Some(entries[key].value) else None
  }

  /**
   * The store after `SETEX key ttlSeconds value` at `now`. Redis refuses a
   * non-positive expiry with an error, which the caller swallows like any
   * other failed write.
   */
  function Store<V>(entries: map<string, Entry<V>>, key: string, value: V, ttlSeconds: int, now: int, fails: bool)
    : map<string, Entry<V>>
  {
    if fails || ttlSeconds <= 0 then entries else entries[key := Entry(value, now + ttlSeconds)]
  }

  /** Reading a key back before its expiry returns what was written. */
  lemma SetThenGet<V>(entries: map<string, Entry<V>>, key: string, value: V, ttlSeconds: int, now: int, later: int)
    requires 0 < ttlSeconds && now <= later < now + ttlSeconds
    ensures Lookup(Store(entries, key, value, ttlSeconds, now, false), key, later, false) == Some(value)
  {
  }

  /** Once the TTL has run out the written value is gone. */
  lemma SetThenExpire<V>(entries: map<string, Entry<V>>, key: string, value: V, ttlSeconds: int, now: int, later: int)
    requires 0 < ttlSeconds && now + ttlSeconds <= later
    ensures Lookup(Store(entries, key, value, ttlSeconds, now, false), key, later, false) == None
  {
  }

  /** A write touches only its own key. */
  lemma SetLeavesOtherKeys<V>(entries: map<string, Entry<V>>, key: string, value: V, ttlSeconds: int, now: int,
                              fails: bool, other: string, later: int, readFails: bool)
    requires other != key
    ensures Lookup(Store(entries, key, value, ttlSeconds, now, fails), other, later, readFails)
         == Lookup(entries, other, later, readFails)
  {
  }

  /** What `connectRedis` did. */
  datatype ConnectResult =
    | AlreadyOpen   // the client was open: nothing was attempted
    | Connected     // the client was closed and is now open
    | ConnectFailed // the client was closed and `connect` threw; the error reaches the caller

  /** The Redis client with the store behind it. */
  class TtlCache<V> {
    var entries: map<string, Entry<V>>
    var isOpen: bool

    /** `createClient()`: a closed client in front of a server that may already hold entries. */
    constructor (stored: map<string, Entry<V>>)
      ensures entries == stored && !isOpen
    {
      entries := stored;
      isOpen := false;
    }

    /** `connectRedis`: connects only when the client is not open yet. */
    method Connect(fails: bool) returns (r: ConnectResult)
      modifies this`isOpen
      ensures old(isOpen) ==> r == AlreadyOpen && isOpen
      ensures !old(isOpen) ==> isOpen == !fails && r == (if fails then ConnectFailed else Connected)
    {
      if isOpen {
        r := AlreadyOpen;
      } else if fails {
        r := ConnectFailed;
      } else {
        isOpen := true;
        r := Connected;
      }
    }

    /** `getCachedData`: the live value under `key`, and null for a missing or expired key or any failure. */
    method Get(key: string, now: int, fails: bool) returns (r: Option<V>)
      ensures r.Some? <==> isOpen && !fails && key in entries && now < entries[key].expiresAt
      ensures r.Some? ==> r.value == entries[key].value
      ensures r == Lookup(entries, key, now, !isOpen || fails)
    {
      if isOpen && !fails && key in entries && now < entries[key].expiresAt {
        r := Some(entries[key].value);
      } else {
        r := None;
      }
    }

    /** `setCachedData`: stores `value` under `key` for `ttlSeconds`; a failure is swallowed and changes nothing. */
    method Set(key: string, value: V, ttlSeconds: int, now: int, fails: bool)
      modifies this`entries
      ensures !isOpen || fails || ttlSeconds <= 0 ==> entries == old(entries)
      ensures isOpen && !fails && 0 < ttlSeconds ==> entries == old(entries)[key := Entry(value, now + ttlSeconds)]
      ensures entries == Store(old(entries), key, value, ttlSeconds, now, !isOpen || fails)
    {
      if isOpen && !fails && 0 < ttlSeconds {
        entries := entries[key := Entry(value, now + ttlSeconds)];
      }
    }
  }
}
