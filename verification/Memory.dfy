/** The in-memory bucket store (internal/storage/storage.go). */
module Memory {
  import opened Keys

  const TWO64: int := 0x1_0000_0000_0000_0000

  type uint64 = x: int | 0 <= x < TWO64

  /** The two counters of a bucket; also the two field names of its Redis hash. */
  datatype Field = Allowed | Denied

  datatype UsageState = UsageState(allowed: uint64, denied: uint64) {
    function Get(f: Field): uint64 {
      if f == Allowed then allowed else denied
    }
  }

  datatype UsageReport = UsageReport(id: Option<BucketId>, usage: UsageState)

  type Buckets = map<BucketKey, UsageState>

  /** A counter, with a missing bucket read as zero. */
  function Count(b: Buckets, k: BucketKey, f: Field): uint64 {
    if k in b then b[k].Get(f) else 0
  }

  /** Unsigned 64-bit addition, field by field. */
  function Plus(u: UsageState, v: UsageState): UsageState {
    UsageState((u.allowed + v.allowed) % TWO64, (u.denied + v.denied) % TWO64)
  }

  function Add(b: Buckets, k: BucketKey, u: UsageState): Buckets {
    b[k := if k in b then Plus(b[k], u) else u]
  }

  function Remove(b: Buckets, k: BucketKey): Buckets {
    b - {k}
  }

  /** What an update does to every counter of the store, present or not. */
  lemma AddCounts(b: Buckets, k: BucketKey, u: UsageState, k': BucketKey, f: Field)
    ensures Count(Add(b, k, u), k', f) == if k' == k then (Count(b, k, f) + u.Get(f)) % TWO64 else Count(b, k', f)
    ensures Count(Remove(b, k), k', f) == if k' == k then 0 else Count(b, k', f)
    ensures Add(b, k, u).Keys == b.Keys + {k} && Remove(b, k).Keys == b.Keys - {k}
  {}

  class MemoryStorage {
    var buckets: Buckets

    constructor ()
      ensures buckets == map[]
    {
      buckets := map[];
    }

    method Get(key: BucketKey) returns (state: UsageState, ok: bool)
      ensures ok <==> key in buckets
      ensures forall f :: state.Get(f) == Count(buckets, key, f)
    {
      if key !in buckets {
        return UsageState(0, 0), false;
      }
      return buckets[key], true;
    }

    method Update(key: BucketKey, u: UsageState)
      modifies this
      ensures buckets == Add(old(buckets), key, u)
    {
      if key !in buckets {
        buckets := buckets[key := u];
        return;
      }
      var state := buckets[key];
      state := state.(allowed := (state.allowed + u.allowed) % TWO64);
      state := state.(denied := (state.denied + u.denied) % TWO64);
      buckets := buckets[key := state];
    }

    method Reset(key: BucketKey)
      modifies this
      ensures buckets == Remove(old(buckets), key)
    {
      buckets := buckets - {key};
    }

    /** A copy: later updates of the store do not change it. */
    method All() returns (result: Buckets)
      ensures result == buckets
    {
      result := map[];
      var todo := buckets.Keys;
      while todo != {}
        invariant todo <= buckets.Keys
        invariant result == map k | k in buckets && k !in todo :: buckets[k]
        decreases todo
      {
        var k :| k in todo;
        result, todo := result[k := buckets[k]], todo - {k};
      }
    }

    method RecordUsage(domain: string, report: UsageReport)
      modifies this
      ensures buckets == Add(old(buckets), DomainScopedKey(domain, CanonicalKey(report.id)), report.usage)
    {
      var key := BucketKeyFromProto(report.id);
      Update(DomainScopedKey(domain, key), report.usage);
    }

    method RemoveBucket(domain: string, key: BucketKey)
      modifies this
      ensures buckets == Remove(old(buckets), DomainScopedKey(domain, key))
    {
      Reset(DomainScopedKey(domain, key));
    }

    method Len() returns (n: nat)
      ensures n == |buckets|
    {
      n := |buckets|;
    }

    method Clear()
      modifies this
      ensures buckets == map[]
    {
      buckets := map[];
    }
  }
}

/** The bucket listing of the admin endpoint (internal/admin/admin.go). */
module Admin {
  import opened Keys
  import opened Memory

  datatype BucketEntry = BucketEntry(key: string, state: UsageState)

  /** With a domain filter a bucket whose key is empty is not listed. */
  predicate Listed(domain: string, k: string) {
    domain == "" || k != ""
  }

  predicate DistinctKeys(es: seq<BucketEntry>) {
    forall i, j :: 0 <= i < j < |es| ==> es[i].key != es[j].key
  }

  /** The entries are those of the stored keys that scope a listed key to `domain`, once each. */
  ghost predicate IsListing(es: seq<BucketEntry>, all: Buckets, domain: string) {
    && DistinctKeys(es)
    && (forall e :: e in es ==> var k := DomainScopedKey(domain, e.key);
                               Listed(domain, e.key) && k in all && all[k] == e.state)
    && (forall k: string :: Listed(domain, k) && DomainScopedKey(domain, k) in all
          ==> BucketEntry(k, all[DomainScopedKey(domain, k)]) in es)
  }

  /** The filter and prefix strip applied to one stored key. */
  function Strip(domain: string, stored: BucketKey): (r: Option<string>)
    ensures r.Some? ==> Listed(domain, r.value) && DomainScopedKey(domain, r.value) == stored
    ensures r.None? ==> forall k: string :: Listed(domain, k) ==> DomainScopedKey(domain, k) != stored
  {
    var prefix := domain + [US];
    if domain == "" then Some(stored)
    else if |stored| <= |prefix| || stored[..|prefix|] != prefix then
      assert forall k: string :: (domain + [US] + k)[..|prefix|] == prefix;
      None
    else
      assert stored == prefix + stored[|prefix|..];
      Some(stored[|prefix|..])
  }

  method ListBuckets(all: Buckets, domain: string) returns (result: seq<BucketEntry>)
    ensures IsListing(result, all, domain)
  {
    result := [];
    var todo := all.Keys;
    ghost var done: Buckets := map[];
    while todo != {}
      invariant todo <= all.Keys && done == all - todo
      invariant IsListing(result, done, domain)
      decreases todo
    {
      var k :| k in todo;
      var key := Strip(domain, k);
      ghost var was, before := result, done;
      if key.Some? {
        result := result + [BucketEntry(key.value, all[k])];
      }
      todo, done := todo - {k}, done[k := all[k]];
      ExtendListing(was, before, domain, k, all[k]);
    }
    assert done == all;
  }

  lemma ExtendListing(es: seq<BucketEntry>, done: Buckets, domain: string, k: BucketKey, u: UsageState)
    requires IsListing(es, done, domain) && k !in done
    ensures var key := Strip(domain, k);
            IsListing(if key.Some? then es + [BucketEntry(key.value, u)] else es, done[k := u], domain)
  {
    forall k1: string, k2: string | DomainScopedKey(domain, k1) == DomainScopedKey(domain, k2) ensures k1 == k2 {
      ScopeInjectiveInKey(domain, k1, k2);
    }
  }

  /** `all` holds exactly the scoped form of `usage`. */
  ghost predicate Holds(all: Buckets, usage: map<(string, BucketKey), UsageState>) {
    && (forall p :: p in usage ==> DomainScopedKey(p.0, p.1) in all && all[DomainScopedKey(p.0, p.1)] == usage[p])
    && (forall k :: k in all ==> exists p :: p in usage && DomainScopedKey(p.0, p.1) == k)
  }

  /**
    Among non-empty domains free of US, the listing filtered on one of them is that domain's usage:
    every non-empty bucket key in its original form with its own counts, and nothing else.
  */
  lemma ListingInvertsScoping(es: seq<BucketEntry>, all: Buckets, domain: string,
                              usage: map<(string, BucketKey), UsageState>)
    requires IsListing(es, all, domain) && Holds(all, usage)
    requires domain != "" && US !in domain
    requires forall p :: p in usage ==> p.0 != "" && US !in p.0
    ensures forall e :: e in es <==> e.key != "" && (domain, e.key) in usage && usage[(domain, e.key)] == e.state
  {
    forall e
      ensures e in es <==> e.key != "" && (domain, e.key) in usage && usage[(domain, e.key)] == e.state
    {
      var k := DomainScopedKey(domain, e.key);
      if e in es {
        var p :| p in usage && DomainScopedKey(p.0, p.1) == k;
        ScopeInjective(p.0, p.1, domain, e.key);
        assert p == (domain, e.key);
      }
      if e.key != "" && (domain, e.key) in usage && usage[(domain, e.key)] == e.state {
        var p := (domain, e.key);
        assert DomainScopedKey(p.0, p.1) in all;
        assert BucketEntry(e.key, all[k]) in es;
      }
    }
  }
}
