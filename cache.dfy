/**
 An in-process key/value store with a time-to-live per key (package cache, cache.go).

 The store keeps two maps over the same keys: `vals` (key to value bytes) and `ttls`
 (key to the absolute instant at which the entry expires). Expiry is lazy: GetBytes and
 TTL delete an entry from both maps when they find it expired. Time is the explicit
 parameter `now`, a count of nanoseconds, in place of `time.Now()`; durations and instants
 are nanosecond counts as well, as Go's `time.Duration` is.

 The pure functions below describe each operation on a `Store` value; the class
 `CacheImpl` is the store itself, whose methods update its two map fields in place and
 are proved against those functions.
 */
module Cache {
  import opened Wrappers

  // Go's time units, in nanoseconds.
  const Millisecond: int := 1_000_000
  const Second: int := 1000 * Millisecond
  const Minute: int := 60 * Second

  /** What TTL returns for a key that is absent or found expired: `-time.Second`. */
  const Missing: int := -Second

  newtype byte = b: int | 0 <= b < 256

  /** A Go string is a sequence of bytes; here each char of the string holds one byte. */
  predicate IsByteString(s: string) {
    forall i | 0 <= i < |s| :: s[i] as int < 256
  }

  type Text = s: string | IsByteString(s)

  /** `[]byte(s)`: a byte-for-byte copy of the string. */
  function ToBytes(s: Text): (b: seq<byte>)
    ensures |b| == |s|
    ensures forall i | 0 <= i < |s| :: b[i] as int == s[i] as int
  {
    seq(|s|, i requires 0 <= i < |s| => s[i] as int as byte)
  }

  /** `string(bs)`: a byte-for-byte copy of the slice. */
  function FromBytes(b: seq<byte>): (s: Text)
    ensures |s| == |b|
    ensures forall i | 0 <= i < |b| :: s[i] as int == b[i] as int
  {
    var s := seq(|b|, i requires 0 <= i < |b| => b[i] as int as char);
    assert forall i | 0 <= i < |s| :: s[i] as int == b[i] as int;
    s
  }

  /** The two maps of a cacheImpl at one moment (cache.go:20-24). */
  datatype Store = Store(vals: map<string, seq<byte>>, ttls: map<string, int>)

  /** The invariant of the store: both maps have the same keys. */
  predicate Consistent(s: Store) {
    s.vals.Keys == s.ttls.Keys
  }

  /** `key` has an entry in both maps whose expiry is not before `now`.
      `time.Time.Before` is strict, so an entry expiring exactly at `now` is live. */
  predicate Live(s: Store, key: string, now: int) {
    key in s.vals && key in s.ttls && !(s.ttls[key] < now)
  }

  /** `key` has an entry in both maps whose expiry is before `now`: a read deletes it. */
  predicate Stale(s: Store, key: string, now: int) {
    key in s.vals && key in s.ttls && s.ttls[key] < now
  }

  /** The value GetBytes returns (cache.go:33-52); None stands for Go's nil. */
  function Read(s: Store, key: string, now: int): (r: Option<seq<byte>>)
    ensures r.Some? <==> Live(s, key, now)
    ensures r.Some? ==> r.value == s.vals[key]
  {
    if key !in s.vals then None
    else if key !in s.ttls then None
    else if s.ttls[key] < now then None
    else Some(s.vals[key])
  }

  /** The store after a read (GetBytes or TTL) of `key` at `now`: an expired entry is
      deleted from both maps; nothing else changes (cache.go:45-48, 105-108). */
  function Evict(s: Store, key: string, now: int): (t: Store)
    ensures Stale(s, key, now) ==> key !in t.vals && key !in t.ttls
    ensures !Stale(s, key, now) ==> t == s
    ensures t.vals.Keys == s.vals.Keys - (if Stale(s, key, now) then {key} else {})
    ensures t.ttls.Keys == s.ttls.Keys - (if Stale(s, key, now) then {key} else {})
    ensures forall k | k in t.vals :: t.vals[k] == s.vals[k]
    ensures forall k | k in t.ttls :: t.ttls[k] == s.ttls[k]
    ensures Consistent(s) ==> Consistent(t)
  {
    if Stale(s, key, now) then Store(s.vals - {key}, s.ttls - {key}) else s
  }

  /** The duration TTL returns (cache.go:91-112): the time left for a live entry,
      otherwise the sentinel; negative exactly when the key is absent or expired. */
  function Remaining(s: Store, key: string, now: int): (d: int)
    ensures Live(s, key, now) ==> d == s.ttls[key] - now
    ensures !Live(s, key, now) ==> d == Missing
    ensures d < 0 <==> !Live(s, key, now)
  {
    if key !in s.vals then Missing
    else if key !in s.ttls then Missing
    else if s.ttls[key] < now then Missing
    else s.ttls[key] - now
  }

  /** The store after SetBytes (cache.go:54-60): `key` holds `val` and expires at
      `now + ttl`; every other entry of both maps is as it was. */
  function Write(s: Store, key: string, val: seq<byte>, ttl: int, now: int): (t: Store)
    ensures key in t.vals && t.vals[key] == val
    ensures key in t.ttls && t.ttls[key] == now + ttl
    ensures t.vals.Keys == s.vals.Keys + {key} && t.ttls.Keys == s.ttls.Keys + {key}
    ensures forall k | k in s.vals && k != key :: t.vals[k] == s.vals[k]
    ensures forall k | k in s.ttls && k != key :: t.ttls[k] == s.ttls[k]
    ensures Consistent(s) ==> Consistent(t)
  {
    Store(s.vals[key := val], s.ttls[key := now + ttl])
  }

  /** The store and the answer after Expire (cache.go:114-129). Only presence in both
      maps is checked, not expiry: a present entry gets the new expiry `now + ttl` even if
      it has already expired. No key is ever added and `vals` never changes. */
  function Touch(s: Store, key: string, ttl: int, now: int): (r: (Store, bool))
    ensures r.1 <==> key in s.vals && key in s.ttls
    ensures !r.1 ==> r.0 == s
    ensures r.1 ==> key in r.0.ttls && r.0.ttls[key] == now + ttl
    ensures r.0.vals == s.vals && r.0.ttls.Keys == s.ttls.Keys
    ensures forall k | k in s.ttls && k != key :: r.0.ttls[k] == s.ttls[k]
    ensures Consistent(s) ==> Consistent(r.0)
  {
    if key !in s.vals then (s, false)
    else if key !in s.ttls then (s, false)
    else (s.(ttls := s.ttls[key := now + ttl]), true)
  }

  /** NearlyEqual (cache.go:131-137): the two durations differ by at most a millisecond.
      The source swaps them so that the first is the larger before comparing. */
  function NearlyEqual(t1: int, t2: int): (r: bool)
    ensures r <==> -Millisecond <= t1 - t2 <= Millisecond
  {
    var (hi, lo) := if t1 < t2 then (t2, t1) else (t1, t2);
    hi >= lo && hi - Millisecond <= lo
  }

  /** cacheImpl (cache.go:20-24); the mutex is not modelled, each method is atomic. */
  class CacheImpl {
    var vals: map<string, seq<byte>>
    var ttls: map<string, int>

    /** The two maps as a value. */
    function State(): Store
      reads this
    {
      Store(vals, ttls)
    }

    ghost predicate Valid()
      reads this
    {
      Consistent(State())
    }

    /** New (cache.go:26-31): both maps empty. */
    constructor ()
      ensures vals == map[] && ttls == map[]
      ensures Valid()
    {
      vals := map[];
      ttls := map[];
    }

    /** GetBytes (cache.go:33-52). */
    method GetBytes(key: string, now: int) returns (r: Option<seq<byte>>)
      modifies this
      ensures r == Read(old(State()), key, now)
      ensures State() == Evict(old(State()), key, now)
      ensures old(Valid()) ==> Valid()
    {
      if key !in vals {
        return None;
      }
      var val := vals[key];
      if key !in ttls {
        return None;
      }
      if ttls[key] < now {
        ttls := ttls - {key};
        vals := vals - {key};
        return None;
      }
      return Some(val);
    }

    /** SetBytes (cache.go:54-60). */
    method SetBytes(key: string, val: seq<byte>, ttl: int, now: int)
      modifies this
      ensures State() == Write(old(State()), key, val, ttl, now)
      ensures vals == old(vals)[key := val] && ttls == old(ttls)[key := now + ttl]
      ensures old(Valid()) ==> Valid()
    {
      vals := vals[key := val];
      ttls := ttls[key := now + ttl];
    }

    /** Get (cache.go:62-68): a miss is ("", false). */
    method Get(key: string, now: int) returns (val: Text, found: bool)
      modifies this
      ensures found <==> Live(old(State()), key, now)
      ensures found ==> val == FromBytes(old(vals)[key])
      ensures !found ==> val == ""
      ensures State() == Evict(old(State()), key, now)
      ensures old(Valid()) ==> Valid()
    {
      var bs := GetBytes(key, now);
      if bs.None? {
        return "", false;
      }
      return FromBytes(bs.value), true;
    }

    /** Set (cache.go:70-72): stores the bytes of the string. */
    method Set(key: string, val: Text, ttl: int, now: int)
      modifies this
      ensures State() == Write(old(State()), key, ToBytes(val), ttl, now)
      ensures old(Valid()) ==> Valid()
    {
      SetBytes(key, ToBytes(val), ttl, now);
    }

    /** TTL (cache.go:91-112). */
    method TTL(key: string, now: int) returns (d: int)
      modifies this
      ensures d == Remaining(old(State()), key, now)
      ensures State() == Evict(old(State()), key, now)
      ensures old(Valid()) ==> Valid()
    {
      if key !in vals {
        return Missing;
      }
      if key !in ttls {
        return Missing;
      }
      var expiresAt := ttls[key];
      if expiresAt < now {
        ttls := ttls - {key};
        vals := vals - {key};
        return Missing;
      }
      return expiresAt - now;
    }

    /** Expire (cache.go:114-129). */
    method Expire(key: string, ttl: int, now: int) returns (ok: bool)
      modifies this
      ensures (State(), ok) == Touch(old(State()), key, ttl, now)
      ensures vals == old(vals)
      ensures old(Valid()) ==> Valid()
    {
      if key !in vals {
        return false;
      }
      if key !in ttls {
        return false;
      }
      ttls := ttls[key := now + ttl];
      return true;
    }
  }
}
