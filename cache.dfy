/**
 * The cache manager: a process-wide key/value store in which every entry has its
 * own time to live, with a default taken from the environment. Expiry is lazy:
 * an entry past its expiry is no longer served, and reading it deletes it. The
 * clock is an explicit parameter (milliseconds), in place of the library's timer.
 */
module Cache {
  import opened Wrappers
  import opened Strings
  import opened JsValues

  /** A stored value and the last instant (in ms) at which it is still served. */
  datatype Entry = Entry(value: JsVal, expiresAt: int)

  type Store = map<string, Entry>

  /** The TTL used when none is given: `parseInt(CACHE_TTL)`, or 300 seconds when that is
      NaN or 0. An unset variable reads as undefined, whose `parseInt` is NaN. */
  function DefaultTtl(cacheTtl: Option<string>): (ttl: int)
    ensures ttl != 0
  {
    match cacheTtl
    case None => 300
    case Some(s) =>
      match ParseInt(s)
      case None => 300
      case Some(n) => if n != 0 then n else 300
  }

  /** The TTL `set(key, value, ttl)` stores with: a truthy `ttl` as given, otherwise the
      default (an omitted, null or 0 `ttl` is falsy). */
  function EffectiveTtl(ttl: Option<int>, stdTtl: int): (t: int)
    ensures ttl.Some? && ttl.value != 0 ==> t == ttl.value
    ensures ttl == None || ttl == Some(0) ==> t == stdTtl
  {
    if ttl.Some? && ttl.value != 0 then ttl.value else stdTtl
  }

  /** An entry is served until its expiry instant has passed. */
  predicate Live(e: Entry, now: int) {
    now <= e.expiresAt
  }

  /** What `get(key)` returns at instant `now`. */
  function Peek(m: Store, key: string, now: int): Option<JsVal> {
    if key in m && Live(m[key], now) then Some(m[key].value) else None
  }

  /** The store after `get(key)` at `now`: an expired entry is deleted when it is read. */
  function AfterGet(m: Store, key: string, now: int): Store {
    if key in m && !Live(m[key], now) then m - {key} else m
  }

  /** The store after `set(key, value, ttl)` at `now`; the TTL is in seconds. */
  function Stored(m: Store, key: string, value: JsVal, ttl: Option<int>, stdTtl: int, now: int): Store {
    m[key := Entry(value, now + EffectiveTtl(ttl, stdTtl) * 1000)]
  }

  class CacheManager {
    /** The default TTL in seconds, fixed at construction. */
    const stdTtl: int
    var entries: Store

    constructor (cacheTtl: Option<string>)
      ensures stdTtl == DefaultTtl(cacheTtl) && entries == map[]
    {
      stdTtl := DefaultTtl(cacheTtl);
      entries := map[];
    }

    method Get(key: string, now: int) returns (r: Option<JsVal>)
      modifies this
      ensures r == Peek(old(entries), key, now)
      ensures entries == AfterGet(old(entries), key, now)
    {
      if key in entries {
        var e := entries[key];
        if now <= e.expiresAt {
          r := Some(e.value);
        } else {
          entries := entries - {key};
          r := None;
        }
      } else {
        r := None;
      }
    }

    method Set(key: string, value: JsVal, ttl: Option<int>, now: int) returns (ok: bool)
      modifies this
      ensures ok
      ensures entries == Stored(old(entries), key, value, ttl, stdTtl, now)
    {
      var seconds := stdTtl;
      if ttl.Some? && ttl.value != 0 {
        seconds := ttl.value;
      }
      entries := entries[key := Entry(value, now + seconds * 1000)];
      ok := true;
    }

    /** Removes `key` and returns how many entries were removed. */
    method Del(key: string) returns (count: nat)
      modifies this
      ensures count == if key in old(entries) then 1 else 0
      ensures entries == old(entries) - {key}
    {
      count := if key in entries then 1 else 0;
      entries := entries - {key};
    }

    method Flush()
      modifies this
      ensures entries == map[]
    {
      entries := map[];
    }

    /** The stored keys; an expired entry nobody has read yet is still listed. */
    method Keys() returns (ks: set<string>)
      ensures ks == entries.Keys
    {
      ks := entries.Keys;
    }
  }

  // ---------------------------------------------------------------------------
  // properties of the store

  /** The default TTL is the configured integer when it is nonzero, and 300 seconds when
      the variable is unset or its value is not a number or is 0. */
  lemma DefaultTtlRule(n: int, junk: string)
    requires ParseInt(junk) == None
    ensures DefaultTtl(Some(IntToString(n))) == if n == 0 then 300 else n
    ensures DefaultTtl(None) == 300 && DefaultTtl(Some(junk)) == 300
  {
    ParseIntOfString(n);
  }

  /** After `set(k, v, ttl)` at `t0`, `get(k)` returns `v` until `ttl` seconds have
      elapsed and nothing afterwards. */
  lemma SetThenGet(m: Store, key: string, value: JsVal, ttl: Option<int>, stdTtl: int, t0: int, t: int)
    ensures var secs := EffectiveTtl(ttl, stdTtl);
      Peek(Stored(m, key, value, ttl, stdTtl, t0), key, t) == if t <= t0 + secs * 1000 then Some(value) else None
  {
  }

  /** `set` on an existing key replaces both its value and its expiry. */
  lemma SetOverwrites(m: Store, key: string, v1: JsVal, v2: JsVal, ttl1: Option<int>, ttl2: Option<int>, stdTtl: int, t1: int, t2: int)
    ensures Stored(Stored(m, key, v1, ttl1, stdTtl, t1), key, v2, ttl2, stdTtl, t2) == Stored(m, key, v2, ttl2, stdTtl, t2)
  {
  }

  /** There is no size bound: `set` never evicts a different key, expired or not. */
  lemma SetKeepsOthers(m: Store, key: string, value: JsVal, ttl: Option<int>, stdTtl: int, t0: int, other: string, t: int)
    requires other != key
    ensures Peek(Stored(m, key, value, ttl, stdTtl, t0), other, t) == Peek(m, other, t)
    ensures other in m ==> other in Stored(m, key, value, ttl, stdTtl, t0)
  {
  }

  /** `del(k)` removes `k` and leaves every other entry as it was. */
  lemma DelOnlyRemovesKey(m: Store, key: string, other: string, t: int)
    ensures Peek(m - {key}, key, t) == None
    ensures other != key ==> Peek(m - {key}, other, t) == Peek(m, other, t)
  {
  }

  /** After `flush()`, nothing is served and no key is listed. */
  lemma FlushEmpties(m: Store, key: string, t: int)
    requires m == map[]
    ensures Peek(m, key, t) == None && m.Keys == {}
  {
  }

  /** Deleting an expired entry on read changes nothing that a later read can observe. */
  lemma GetSweepInvisible(m: Store, key: string, t: int, other: string, later: int)
    requires t <= later
    ensures Peek(AfterGet(m, key, t), other, later) == Peek(m, other, later)
  {
  }
}
