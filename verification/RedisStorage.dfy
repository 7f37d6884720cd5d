/** The Redis-backed store as an object (internal/storage/redis.go), each call proved to be a step of `Redis`. */
module RedisStore {
  import opened Keys
  import opened Memory
  import opened Redis

  const DEFAULT_RETRY_INTERVAL: int := 5_000_000_000  // 5s in nanoseconds
  const DEFAULT_MAX_FALLBACK: nat := 10000

  /** The shared Redis server. */
  class RedisServer {
    var hashes: Hashes

    constructor ()
      ensures hashes == map[]
    {
      hashes := map[];
    }

    /** Exec of a pipeline: an error if the connection failed or any command did. */
    method Exec(cmds: seq<Command>, net: Net) returns (ok: bool)
      modifies this
      ensures hashes == Redis.Exec(old(hashes), cmds, net)
      ensures ok <==> net.Up? && !SomeFails(old(hashes), cmds, net)
    {
      ok := net.Up? && !SomeFails(hashes, cmds, net);
      hashes := Redis.Exec(hashes, cmds, net);
    }

    method Del(key: BucketKey, del: DelNet) returns (ok: bool)
      modifies this
      ensures hashes == (if del.Done? || del.applied then Redis.Del(old(hashes), key) else old(hashes))
      ensures ok <==> del.Done?
    {
      ok := del.Done?;
      if del.Done? || del.applied {
        hashes := Redis.Del(hashes, key);
      }
    }
  }

  class RedisStorage {
    const client: RedisServer
    const fallback: MemoryStorage
    const maxFallbackKeys: nat
    const retryInterval: int
    var tripped: bool
    var lastAttempt: int

    ghost function Settings(): Config {
      Config(maxFallbackKeys, retryInterval)
    }

    ghost function View(): Node
      reads this, fallback
    {
      Node(fallback.buckets, tripped, lastAttempt)
    }

    constructor (client: RedisServer, cfgMaxFallbackKeys: int)
      ensures this.client == client && fresh(fallback)
      ensures View() == FRESH
      ensures retryInterval == 5_000_000_000
      ensures maxFallbackKeys == (if cfgMaxFallbackKeys <= 0 then 10000 else cfgMaxFallbackKeys) > 0
    {
      this.client := client;
      fallback := new MemoryStorage();
      maxFallbackKeys := if cfgMaxFallbackKeys <= 0 then DEFAULT_MAX_FALLBACK else cfgMaxFallbackKeys;
      retryInterval := DEFAULT_RETRY_INTERVAL;
      tripped, lastAttempt := false, 0;
    }

    method RecordUsage(domain: string, report: UsageReport, now: int, pipe: Net, flush: Net)
      modifies this, client, fallback
      ensures (client.hashes, View()) ==
              Record(Settings(), old(client.hashes), old(View()),
                     DomainScopedKey(domain, CanonicalKey(report.id)), report.usage, now, pipe, flush)
    {
      var key := BucketKeyFromProto(report.id);
      var scopedKey := DomainScopedKey(domain, key);
      if tripped {
        var retry := ShouldRetry(now);
        if retry {
          var ok := TryRedisRecordUsage(scopedKey, report.usage, pipe);
          if ok {
            RecoverFromFallback(flush);
            return;
          }
        }
        var len := fallback.Len();
        if maxFallbackKeys > 0 && len >= maxFallbackKeys {
          var _, found := fallback.Get(scopedKey);
          if !found {
            return;
          }
        }
        fallback.RecordUsage(domain, report);
        return;
      }
      var ok := TryRedisRecordUsage(scopedKey, report.usage, pipe);
      if !ok {
        TripBreaker(now);
        fallback.RecordUsage(domain, report);
      }
    }

    method RemoveBucket(domain: string, key: BucketKey, now: int, del: DelNet, flush: Net)
      modifies this, client, fallback
      ensures (client.hashes, View()) ==
              Delete(Settings(), old(client.hashes), old(View()), DomainScopedKey(domain, key), now, del, flush)
    {
      var scopedKey := DomainScopedKey(domain, key);
      if tripped {
        var retry := ShouldRetry(now);
        if retry {
          var ok := client.Del(scopedKey, del);
          if ok {
            RecoverFromFallback(flush);
            return;
          }
        }
        fallback.RemoveBucket(domain, key);
        return;
      }
      var ok := client.Del(scopedKey, del);
      if !ok {
        TripBreaker(now);
        fallback.RemoveBucket(domain, key);
      }
    }

    method TryRedisRecordUsage(key: BucketKey, u: UsageState, pipe: Net) returns (ok: bool)
      modifies client
      ensures client.hashes == Bump(old(client.hashes), OneReport(key, u), pipe)
      ensures ok <==> BumpOk(old(client.hashes), OneReport(key, u), pipe)
    {
      var cmds := [HIncrBy((key, Allowed), ToInt64(u.allowed)), HIncrBy((key, Denied), ToInt64(u.denied)), Expire(key)];
      OneReportCarried(key, u, cmds);
      ExecIsBump(client.hashes, cmds, OneReport(key, u), pipe);
      ok := client.Exec(cmds, pipe);
    }

    method RecoverFromFallback(flush: Net)
      requires tripped
      modifies this, client, fallback
      ensures (client.hashes, View()) == Recover(old(client.hashes), old(View()), flush)
    {
      hide Bump, NonZero;
      FlushFallback(flush);
      tripped := false;
    }

    /** Flush every fallback entry in one pipeline; clear the fallback whether or not it succeeded. */
    method FlushFallback(flush: Net)
      modifies client, fallback
      ensures client.hashes == Bump(old(client.hashes), NonZero(old(fallback.buckets)), flush)
      ensures fallback.buckets == map[]
    {
      hide Bump, NonZero;
      var entries := fallback.All();
      if |entries| == 0 {
        NonZeroIs(entries, map[]);
        ExecIsBump(client.hashes, [], map[], flush);
        return;
      }
      var cmds := FlushCommands(entries);
      ExecIsBump(client.hashes, cmds, NonZero(entries), flush);
      var _ := client.Exec(cmds, flush);
      fallback.Clear();
    }

    method TripBreaker(now: int)
      modifies this
      ensures tripped && lastAttempt == now
    {
      tripped := true;
      lastAttempt := now;
    }

    method ShouldRetry(now: int) returns (retry: bool)
      ensures retry <==> now - lastAttempt >= retryInterval
    {
      retry := now - lastAttempt >= retryInterval;
    }
  }

  lemma OneReportCarried(key: BucketKey, u: UsageState, cmds: seq<Command>)
    requires cmds == [HIncrBy((key, Allowed), ToInt64(u.allowed)), HIncrBy((key, Denied), ToInt64(u.denied)),
                      Expire(key)]
    ensures Carries(cmds, OneReport(key, u))
  {
    var am := OneReport(key, u);
    assert am - {(key, Allowed)} == map[(key, Denied) := u.denied];
    assert am - {(key, Allowed)} - {(key, Denied)} == map[];
    assert Carries(cmds[2..], map[]);
    assert cmds[1..][1..] == cmds[2..];
    assert Carries(cmds[1..], am - {(key, Allowed)});
  }

  /** The pipeline built from the entries, visited in no fixed order. */
  method FlushCommands(entries: Buckets) returns (cmds: seq<Command>)
    ensures Carries(cmds, NonZero(entries))
  {
    hide NonZero, Carries;
    cmds := [];
    assert Carries([], map[]) by { NothingCarried(); }
    var todo := entries.Keys;
    ghost var done: Buckets := map[];
    NonZeroIs(done, map[]);
    while todo != {}
      invariant todo <= entries.Keys && done == entries - todo
      invariant Carries(cmds, NonZero(done))
      decreases todo
    {
      var k :| k in todo;
      var state := entries[k];
      ghost var before := cmds;
      if state.allowed > 0 {
        cmds := cmds + [HIncrBy((k, Allowed), ToInt64(state.allowed))];
      }
      if state.denied > 0 {
        cmds := cmds + [HIncrBy((k, Denied), ToInt64(state.denied))];
      }
      cmds := cmds + [Expire(k)];
      assert cmds == before + Batch(k, state);
      EntryCarried(before, done, k, state);
      todo, done := todo - {k}, done[k := state];
    }
    assert done == entries;
  }

  lemma NothingCarried()
    ensures Carries([], map[])
  {}

  ghost function Batch(k: BucketKey, u: UsageState): seq<Command> {
    (if u.allowed > 0 then [HIncrBy((k, Allowed), ToInt64(u.allowed))] else [])
    + (if u.denied > 0 then [HIncrBy((k, Denied), ToInt64(u.denied))] else [])
    + [Expire(k)]
  }

  lemma EntryCarried(cmds: seq<Command>, done: Buckets, k: BucketKey, u: UsageState)
    requires Carries(cmds, NonZero(done)) && k !in done
    ensures Carries(cmds + Batch(k, u), NonZero(done[k := u]))
  {
    hide NonZero;
    var one := map[k := u];
    BatchCarries(k, u);
    forall p
      ensures p in NonZero(one) <==> p.0 == k && u.Get(p.1) > 0
      ensures p in NonZero(one) ==> NonZero(one)[p] == u.Get(p.1)
      ensures p in NonZero(done) <==> Count(done, p.0, p.1) > 0
      ensures p in NonZero(done) ==> NonZero(done)[p] == Count(done, p.0, p.1)
    {
      NonZeroAt(one, p);
      NonZeroAt(done, p);
    }
    CarriesAppend(cmds, NonZero(done), Batch(k, u), NonZero(one));
    NonZeroIs(done[k := u], NonZero(done) + NonZero(one));
  }

  lemma BatchCarries(k: BucketKey, u: UsageState)
    ensures Carries(Batch(k, u), NonZero(map[k := u]))
  {
    hide NonZero;
    var a, d: Amounts := if u.allowed > 0 then map[(k, Allowed) := u.allowed] else map[],
                         if u.denied > 0 then map[(k, Denied) := u.denied] else map[];
    var ca := if u.allowed > 0 then [HIncrBy((k, Allowed), ToInt64(u.allowed))] else [];
    var cd := if u.denied > 0 then [HIncrBy((k, Denied), ToInt64(u.denied))] else [];
    assert Carries(ca, a) by { assert a - {(k, Allowed)} == map[]; }
    assert Carries(cd, d) by { assert d - {(k, Denied)} == map[]; }
    CarriesAppend(ca, a, cd, d);
    CarriesAppend(ca + cd, a + d, [Expire(k)], map[]);
    assert a + d + map[] == a + d;
    forall p: Cell
      ensures p in a + d <==> p.0 == k && u.Get(p.1) > 0
      ensures p in a + d ==> (a + d)[p] == u.Get(p.1)
    {
      assert p == (p.0, p.1) && (p.1 == Allowed || p.1 == Denied);
    }
    NonZeroIs(map[k := u], a + d);
  }

  lemma {:induction false} CarriesAppend(c1: seq<Command>, am1: Amounts, c2: seq<Command>, am2: Amounts)
    requires Carries(c1, am1) && Carries(c2, am2) && am1.Keys !! am2.Keys
    ensures Carries(c1 + c2, am1 + am2)
    decreases c1
  {
    if c1 == [] {
      assert c1 + c2 == c2 && am1 + am2 == am2;
    } else {
      assert (c1 + c2)[1..] == c1[1..] + c2;
      if c1[0].Expire? {
        CarriesAppend(c1[1..], am1, c2, am2);
      } else {
        var p := c1[0].cell;
        CarriesAppend(c1[1..], am1 - {p}, c2, am2);
        assert am1 + am2 - {p} == (am1 - {p}) + am2;
      }
    }
  }
}
