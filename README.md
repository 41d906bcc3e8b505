# memcache: an expiring key/value store, modelled in Dafny

The Go package `cache` (cache.go) is an in-process key/value store with a time-to-live
per key. A `cacheImpl` holds two maps over the same keys. `vals` maps a key to its value
bytes. `ttls` maps a key to the absolute instant at which the entry expires. Expiry is
lazy. `GetBytes` and `TTL` delete an entry from both maps when they find it expired, and
nothing else ever removes one.

The model has four modules:

- `Wrappers` (wrappers.dfy): `Option`, the miss of `GetBytes` (Go's nil slice) being `None`.
- `Cache` (cache.dfy): the store as a class `CacheImpl` with the two map fields, whose
  methods update them in place. Each method is proved against a pure function over a
  `Store` value: `Read`, `Evict`, `Remaining`, `Write` and `Touch`. The module also holds
  `NearlyEqual` and the string/byte conversions used by `Get` and `Set`.
- `CacheProperties` (cache_properties.dfy): lemmas over single calls and over any sequence
  of timed calls (`Run`). They cover the key-set invariant, that only `SetBytes` creates a
  key, that expiry is permanent, and that lazy deletion is invisible to reads.
- `CacheTest` (cache_test.dfy): the scenario of `TestCacheImpl` as a client of the class.
  Its expected outcomes are postconditions proved from the method contracts.

Time is an explicit parameter `now` on each call, in place of `time.Now()`. Instants and
durations are unbounded integers counting nanoseconds, like `time.Duration`. The sentinel
that `TTL` returns for an absent or expired key is `-time.Second`, i.e. -1,000,000,000.
`time.Time.Before` is strict, so an entry whose expiry equals `now` is still live.

Points of the code's behaviour worth knowing:

- Unlike a read, `Expire` does not check the expiry. It checks only that the key is
  present in both maps (cache.go:118-124). On an entry that has expired but has not yet
  been deleted by a read, it returns true and gives the entry a new expiry, reviving it.
  One might expect false here, as for an absent key. `ExpireSeesEviction` states the
  behaviour as written.
- As long as call instants never go backwards (Go's monotonic clock reading ensures
  this), `Expire` is the one place where lazy deletion can be observed:
  `ReadsAreUnobservable` shows that reads made no later than `now` cannot see it. With
  instants allowed to go backwards, a read could: an entry expiring at 5, deleted by a
  GetBytes at 10, would still have been found by a read at 3
  (`BackwardReadSeesEviction`).
- `ExpiryIsPermanent` therefore excludes `Expire` calls on the key as well as `Set` calls.
- `TTL` returns exactly `-time.Second` for an absent or expired key.
- The second-map checks in GetBytes, TTL and Expire (cache.go:41-44, 99-102, 122-124)
  never fail on a consistent store: `SecondMapChecksNeverFail`.

## Model

| member | source | states |
|---|---|---|
| `Cache.Read` | cache.go:33-52 | GetBytes hits iff the key is in both maps and its expiry is not before `now`; a hit returns the stored bytes |
| `Cache.Evict` | cache.go:37-49 | a read deletes an expired entry from both maps; otherwise the store is unchanged; no other key or value changes; the key-set invariant is kept |
| `Cache.Remaining` | cache.go:91-112 | TTL returns expiry minus `now` for a live key and `-time.Second` otherwise; the result is negative exactly when the key is absent or expired |
| `Cache.Write` | cache.go:54-60 | SetBytes leaves `vals[key] == val` and `ttls[key] == now + ttl`, adds only `key`, leaves every other entry of both maps as it was, and keeps the invariant |
| `Cache.Touch` | cache.go:114-129 | Expire succeeds iff the key is in both maps; on failure nothing changes; on success the expiry becomes `now + ttl`; `vals` and the key set never change |
| `Cache.NearlyEqual` | cache.go:131-137 | true iff the two durations differ by at most one millisecond |
| `Cache.ToBytes` | cache.go:71 | `[]byte(s)` copies the string byte for byte |
| `Cache.FromBytes` | cache.go:67 | `string(bs)` copies the bytes char for byte |
| `Cache.CacheImpl.constructor` | cache.go:26-31 | New starts with both maps empty, so the invariant holds |
| `Cache.CacheImpl.GetBytes` | cache.go:33-52 | returns `Read` of the old maps and leaves the maps as `Evict` gives; keeps the invariant |
| `Cache.CacheImpl.SetBytes` | cache.go:54-60 | updates both maps at `key` to the value and `now + ttl` as `Write` gives; keeps the invariant |
| `Cache.CacheImpl.Get` | cache.go:62-68 | found iff the key was live; a hit returns the stored bytes as a string, a miss returns ""; the maps change as `Evict` gives |
| `Cache.CacheImpl.Set` | cache.go:70-72 | stores the bytes of the string as SetBytes does |
| `Cache.CacheImpl.TTL` | cache.go:91-112 | returns `Remaining` of the old maps and leaves the maps as `Evict` gives; keeps the invariant |
| `Cache.CacheImpl.Expire` | cache.go:114-129 | the answer and the new maps are those of `Touch`; `vals` is unchanged; keeps the invariant |
| `CacheProperties.RunKeepsConsistent` | cache.go:33-129 | after any sequence of calls, both maps still have the same key set |
| `CacheProperties.NewThenRunIsConsistent` | cache.go:26-31 | a store made by New keeps both maps on the same key set under any sequence of calls |
| `CacheProperties.OnlySetCreatesKey` | cache.go:114-129 | a key absent from both maps stays absent under any calls that do not set it; Expire, GetBytes and TTL never add a key |
| `CacheProperties.ExpiryIsPermanent` | cache.go:45-48 | a key not live at `since` stays absent for every later GetBytes and TTL, as long as no later call sets it or replaces its expiry |
| `CacheProperties.ReadsAreUnobservable` | cache.go:105-108 | after any GetBytes and TTL calls made no later than `now`, both answer at `now` as they would have on the original store |
| `CacheProperties.SecondMapChecksNeverFail` | cache.go:33-129 | on a store whose maps have the same keys, Expire succeeds iff the key is in `vals`, and GetBytes and TTL answer from `vals` and the expiry alone |
| `CacheProperties.BackwardReadSeesEviction` | cache.go:45-48 | if call instants could go backwards, a read before the expiry would see that an earlier GetBytes deleted the entry |
| `CacheProperties.ExpireSeesEviction` | cache.go:118-126 | Expire succeeds on an expired entry that is still stored and revives it, but fails once a read has deleted that entry |
| `CacheProperties.SetThenRead` | cache_test.go:19-27 | after SetBytes, a read before the expiry returns the value, and TTL gives ttl less the elapsed time, NearlyEqual to ttl within a millisecond |
| `CacheProperties.LiveAtExpiryInstant` | cache.go:45 | an entry is still returned at its exact expiry instant, with TTL 0, and is gone one nanosecond later |
| `CacheProperties.ExpireThenRead` | cache_test.go:30-31 | after Expire on a present key the value is kept and TTL gives the new ttl less the elapsed time |
| `CacheProperties.TextRoundTrip` | cache.go:62-72 | a string set with Set comes back unchanged from Get |
| `CacheProperties.NearlyEqualSymmetric` | cache.go:131-137 | NearlyEqual does not depend on argument order |
| `CacheTest.TestCacheImpl` | cache_test.go:12-55 | the outcomes the test asserts: the hit on "k1", its TTL within a millisecond of 2s and then of 1 minute, the two TTL calls per window (lower bound on the first, upper on the second), the misses with `("", false)` and the `-time.Second` sentinel |

## Left out

- `sync.Mutex` locking: each method is treated as one atomic step. Concurrent callers are not modelled.
- `time.Now()` is replaced by the `now` parameter. Clock progression and `time.Sleep` appear only as conditions on the instants passed in.
- `GetInterface` and `SetInterface` (cache.go:74-89) are left out. They wrap `encoding/json`, whose behaviour is not part of this model.
- The `Cache` interface type (cache.go:9-18) is not modelled as a separate type. Its operations are the methods of `CacheImpl`.
- int64 overflow of `time.Duration` and `time.Time.Add`/`Sub` is not modelled. Instants and durations are unbounded integers.
- `Cache.CacheImpl.SetBytes` and `Cache.CacheImpl.GetBytes`: Go stores the caller's slice itself (cache.go:58) and returns that same slice (cache.go:51), so a caller writing through either slice changes the cached value. The model stores immutable byte sequences, so this aliasing is not captured; its read-after-write results (for example `SetThenRead`) hold in Go only for callers that never write through those slices.
- Go's nil/empty slice distinction is not modelled beyond the miss signal. `SetBytes(key, nil, ttl)` followed by `GetBytes` would return nil in Go, which callers take as a miss. The model returns `Some([])`.
- Go strings are modelled as Dafny strings whose characters each hold one byte (`Text`). UTF-8 encoding of text is not modelled.
