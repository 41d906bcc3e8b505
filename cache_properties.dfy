/**
 Properties of the store of cache.go over single calls and over sequences of calls.

 A sequence of calls is a list of `Timed` calls, each made at its own instant; `Run`
 applies them in order to a `Store` as the methods of `CacheImpl` do.
 */
module CacheProperties {
  import opened Wrappers
  import opened Cache

  /** One call on the store; Get and Set act on the store as GetBytes and SetBytes do. */
  datatype Call =
    | SetBytesCall(key: string, val: seq<byte>, ttl: int)
    | GetBytesCall(key: string)
    | TTLCall(key: string)
    | ExpireCall(key: string, ttl: int)

  datatype Timed = Timed(call: Call, now: int)

  /** The store after one call at `now`. */
  function Step(s: Store, c: Call, now: int): Store {
    match c
    case SetBytesCall(key, val, ttl) => Write(s, key, val, ttl, now)
    case GetBytesCall(key) => Evict(s, key, now)
    case TTLCall(key) => Evict(s, key, now)
    case ExpireCall(key, ttl) => Touch(s, key, ttl, now).0
  }

  /** The store after the calls, in order. */
  function Run(s: Store, calls: seq<Timed>): Store
    decreases |calls|
  {
    if calls == [] then s else Run(Step(s, calls[0].call, calls[0].now), calls[1..])
  }

  /** The call writes a new value for `key`. */
  predicate Sets(c: Call, key: string) {
    c.SetBytesCall? && c.key == key
  }

  /** The call replaces the expiry of `key`. */
  predicate Touches(c: Call, key: string) {
    c.ExpireCall? && c.key == key
  }

  /** Every operation keeps the two maps on the same key set, so the second-map checks
      of GetBytes, TTL and Expire never fail on a store built by New and these calls. */
  lemma {:induction false} RunKeepsConsistent(s: Store, calls: seq<Timed>)
    requires Consistent(s)
    ensures Consistent(Run(s, calls))
    decreases |calls|
  {
    if calls != [] {
      var t := Step(s, calls[0].call, calls[0].now);
      assert Consistent(t);
      RunKeepsConsistent(t, calls[1..]);
    }
  }

  /** A store built by New and any calls has both maps on the same keys. */
  lemma NewThenRunIsConsistent(calls: seq<Timed>)
    ensures Consistent(Run(Store(map[], map[]), calls))
  {
    RunKeepsConsistent(Store(map[], map[]), calls);
  }

  /** Only SetBytes creates a key: Expire, GetBytes and TTL never add one, however
      many of them are made. */
  lemma {:induction false} OnlySetCreatesKey(s: Store, calls: seq<Timed>, key: string)
    requires key !in s.vals && key !in s.ttls
    requires forall i | 0 <= i < |calls| :: !Sets(calls[i].call, key)
    ensures key !in Run(s, calls).vals && key !in Run(s, calls).ttls
    decreases |calls|
  {
    if calls != [] {
      var t := Step(s, calls[0].call, calls[0].now);
      assert key !in t.vals && key !in t.ttls by {
        assert !Sets(calls[0].call, key);
      }
      OnlySetCreatesKey(t, calls[1..], key);
    }
  }

  /** Once `key` is not live at `since`, it stays so: every later GetBytes misses and every
      later TTL gives the sentinel, as long as no call sets it or replaces its expiry. */
  lemma {:induction false} ExpiryIsPermanent(s: Store, calls: seq<Timed>, key: string, since: int, now: int)
    requires !Live(s, key, since)
    requires forall i | 0 <= i < |calls| :: since <= calls[i].now
    requires forall i | 0 <= i < |calls| :: !Sets(calls[i].call, key) && !Touches(calls[i].call, key)
    requires since <= now
    ensures Read(Run(s, calls), key, now) == None
    ensures Remaining(Run(s, calls), key, now) == Missing
    decreases |calls|
  {
    if calls == [] {
      return;
    }
    var c := calls[0];
    var t := Step(s, c.call, c.now);
    assert !Sets(c.call, key) && !Touches(c.call, key) && since <= c.now;
    assert !Live(t, key, since) by {
      match c.call
      case SetBytesCall(k, v, d) =>
      case GetBytesCall(k) =>
      case TTLCall(k) =>
      case ExpireCall(k, d) =>
    }
    forall i | 0 <= i < |calls[1..]|
      ensures since <= calls[1..][i].now
      ensures !Sets(calls[1..][i].call, key) && !Touches(calls[1..][i].call, key)
    {
      assert calls[1..][i] == calls[i + 1];
    }
    ExpiryIsPermanent(t, calls[1..], key, since, now);
  }

  /** Lazy deletion is invisible to GetBytes and TTL: after any number of reads made no
      later than `now`, both answer at `now` as they would have on the original store. */
  lemma {:induction false} ReadsAreUnobservable(s: Store, calls: seq<Timed>, key: string, now: int)
    requires forall i | 0 <= i < |calls| :: calls[i].call.GetBytesCall? || calls[i].call.TTLCall?
    requires forall i | 0 <= i < |calls| :: calls[i].now <= now
    ensures Read(Run(s, calls), key, now) == Read(s, key, now)
    ensures Remaining(Run(s, calls), key, now) == Remaining(s, key, now)
    decreases |calls|
  {
    if calls != [] {
      var c := calls[0];
      var t := Step(s, c.call, c.now);
      assert t == Evict(s, c.call.key, c.now);
      assert Read(t, key, now) == Read(s, key, now);
      assert Remaining(t, key, now) == Remaining(s, key, now);
      forall i | 0 <= i < |calls[1..]|
        ensures calls[1..][i].call.GetBytesCall? || calls[1..][i].call.TTLCall?
        ensures calls[1..][i].now <= now
      {
        assert calls[1..][i] == calls[i + 1];
      }
      ReadsAreUnobservable(t, calls[1..], key, now);
    }
  }

  /** On a store whose maps have the same keys, the second-map checks of GetBytes, TTL and
      Expire never decide the answer: presence in `vals` and the expiry alone do. */
  lemma SecondMapChecksNeverFail(s: Store, key: string, ttl: int, now: int)
    requires Consistent(s)
    ensures Touch(s, key, ttl, now).1 <==> key in s.vals
    ensures Read(s, key, now).Some? <==> key in s.vals && !(s.ttls[key] < now)
    ensures Remaining(s, key, now) == if key in s.vals && !(s.ttls[key] < now) then s.ttls[key] - now else Missing
  {
  }

  /** Without monotonic time a read could see lazy deletion: an entry expiring at 5,
      deleted by a GetBytes at 10, would still have been found by a read at 3. */
  lemma BackwardReadSeesEviction(key: string, val: seq<byte>)
    ensures Read(Store(map[key := val], map[key := 5]), key, 3) == Some(val)
    ensures Read(Run(Store(map[key := val], map[key := 5]), [Timed(GetBytesCall(key), 10)]), key, 3) == None
  {
  }

  /** Expire is the one call that tells an evicted entry from an expired one still
      stored: it succeeds on the stored entry (reviving it) and fails once a read has
      deleted it. */
  lemma ExpireSeesEviction(s: Store, key: string, ttl: int, now: int, later: int)
    requires Stale(s, key, now)
    ensures Touch(s, key, ttl, later).1
    ensures !Touch(Evict(s, key, now), key, ttl, later).1
    ensures 0 <= ttl ==> Read(Touch(s, key, ttl, later).0, key, later) == Some(s.vals[key])
  {
  }

  /** Set followed by reads (cache_test.go:19-27): the value is found and the time left
      is the ttl less the time elapsed; within a millisecond it is NearlyEqual to ttl. */
  lemma SetThenRead(s: Store, key: string, val: seq<byte>, ttl: int, now: int, later: int)
    requires now <= later <= now + ttl
    ensures Read(Write(s, key, val, ttl, now), key, later) == Some(val)
    ensures Remaining(Write(s, key, val, ttl, now), key, later) == ttl - (later - now)
    ensures later - now <= Millisecond ==> NearlyEqual(Remaining(Write(s, key, val, ttl, now), key, later), ttl)
  {
  }

  /** An entry is still live at the very instant it expires and gone one nanosecond later,
      because `time.Time.Before` is strict. */
  lemma LiveAtExpiryInstant(s: Store, key: string, val: seq<byte>, ttl: int, now: int)
    ensures Read(Write(s, key, val, ttl, now), key, now + ttl) == Some(val)
    ensures Remaining(Write(s, key, val, ttl, now), key, now + ttl) == 0
    ensures Read(Write(s, key, val, ttl, now), key, now + ttl + 1) == None
  {
  }

  /** Expire on a present key replaces its expiry, keeps its value, and TTL then reports
      the new ttl less the time elapsed (cache_test.go:30-31). */
  lemma ExpireThenRead(s: Store, key: string, ttl: int, now: int, later: int)
    requires key in s.vals && key in s.ttls
    requires now <= later <= now + ttl
    ensures Read(Touch(s, key, ttl, now).0, key, later) == Some(s.vals[key])
    ensures Remaining(Touch(s, key, ttl, now).0, key, later) == ttl - (later - now)
  {
  }

  /** A Go string survives the trip through the byte slice Set stores and Get returns. */
  lemma TextRoundTrip(s: Text)
    ensures FromBytes(ToBytes(s)) == s
  {
  }

  /** NearlyEqual does not depend on the order of its arguments. */
  lemma NearlyEqualSymmetric(t1: int, t2: int)
    ensures NearlyEqual(t1, t2) == NearlyEqual(t2, t1)
  {
  }
}
