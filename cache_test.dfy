/**
 The scenario of TestCacheImpl (cache_test.go:12-55) as a client of `CacheImpl`, with the
 instants of its calls as parameters. What the test checks at run time follows here from
 the methods' contracts alone. The test's `time.Sleep(time.Second)` becomes the condition
 that the read of "k3" comes strictly more than a second after its Set: `Before` is strict,
 so a read exactly one second later would still find the entry. As in the test, each
 TTL window is checked on two calls: the lower bound on the first, the upper on the second.
 */
module CacheTest {
  import opened Cache
  import CacheProperties

  method TestCacheImpl(t0: int, t1: int, t2: int, t2b: int, t3: int, t4: int, t4b: int, t5: int, t6: int, t7: int)
    returns (v1: Text, ok1: bool, ttl1: int, ttl1b: int, expired: bool, ttl2: int, ttl2b: int,
             v2: Text, ok2: bool, ttl3: int, v3: Text, ok3: bool, ttl4: int)
    requires t0 <= t1 <= t2 <= t2b <= t0 + Millisecond
    requires t2b <= t3 <= t4 <= t4b <= t3 + Millisecond
    requires t4 <= t5 <= t6
    requires t6 + Second < t7
    ensures ok1 && v1 == "v1"
    ensures 2 * Second - Millisecond <= ttl1 && ttl1b <= 2 * Second
    ensures expired
    ensures Minute - Millisecond <= ttl2 && ttl2b <= Minute
    ensures !ok2 && v2 == ""
    ensures ttl3 == -Second
    ensures !ok3 && v3 == ""
    ensures ttl4 == -Second
  {
    var c := new CacheImpl();

    // exist
    c.Set("k1", "v1", 2 * Second, t0);
    CacheProperties.TextRoundTrip("v1");
    v1, ok1 := c.Get("k1", t1);
    ttl1 := c.TTL("k1", t2);
    ttl1b := c.TTL("k1", t2b);
    expired := c.Expire("k1", Minute, t3);
    ttl2 := c.TTL("k1", t4);
    ttl2b := c.TTL("k1", t4b);

    // not-exist
    v2, ok2 := c.Get("k2", t5);
    ttl3 := c.TTL("v2", t5);

    // expire
    c.Set("k3", "v3", Second, t6);
    v3, ok3 := c.Get("k3", t7);
    ttl4 := c.TTL("k3", t7);
  }
}
