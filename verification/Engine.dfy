/** Configuration as far as engine, classifier and reload look at it (internal/config/config.go). */
module Config {
  import opened Keys
  import opened Memory
  import opened Api

  datatype DenyResponse = DenyResponse(httpStatus: int, httpBody: string, grpcStatusCode: int,
                                       grpcStatusMessage: string, headersToAdd: map<string, string>)

  datatype PolicyConfig = PolicyConfig(
    domainPattern: string, bucketKeyPattern: string, tokensPerFill: uint64, rps: uint64,
    assignmentTTL: Option<Duration>, strategy: string, requestsPerTimeUnit: uint64, timeUnit: string,
    denyResponse: Option<DenyResponse>)

  datatype EngineConfig = EngineConfig(
    defaultTokensPerFill: uint64, defaultRPS: uint64, reportingInterval: Duration, policies: seq<PolicyConfig>)

  /** `restartOnly` stands for the server settings that are only compared. */
  datatype ServerConfig = ServerConfig(maxMetricDomains: int, restartOnly: string)

  /** The storage and tracing sections are only compared. */
  datatype Config = Config(server: ServerConfig, engine: EngineConfig, storage: string, tracing: string)
}

/** Engines and how they are built (internal/policy/policy.go, internal/quota/quota.go, cmd/rlqs-server/main.go). */
module Engine {
  import opened Keys
  import opened Memory
  import opened Api
  import opened Config
  import opened Classifier

  const MAX_PATTERN_LENGTH := 1024
  const TWO32: int := 0x1_0000_0000
  const HALF64: int := 0x8000_0000_0000_0000

  /** The Go conversion uint32(x). */
  function ToUint32(x: uint64): uint32 {
    x % TWO32
  }

  /** Signed 64-bit wrap-around. */
  function Wrap64(x: int): int {
    (x + HALF64) % TWO64 - HALF64
  }

  // ---------------------------------------------------------------------------------------------
  // Policies
  // ---------------------------------------------------------------------------------------------

  /** A compiled regular expression is represented by its pattern. */
  datatype Policy = Policy(
    domainPattern: string, bucketKeyPattern: string, assignment: Assignment, denyResponse: Option<DenyResponse>,
    domainRegex: Option<string>, bucketKeyRegex: Option<string>)

  /** The two engines. */
  datatype QuotaEngine =
    | DefaultEngine(assignment: Assignment)
    | PolicyEngine(policies: seq<Policy>, default: Policy)

  predicate PatternOk(lib: Lib, p: string) {
    p == "" || (|p| <= MAX_PATTERN_LENGTH && lib.compiles(p))
  }

  function Compiled(p: Policy): Policy {
    p.(domainRegex := if p.domainPattern != "" then Some(p.domainPattern) else p.domainRegex,
       bucketKeyRegex := if p.bucketKeyPattern != "" then Some(p.bucketKeyPattern) else p.bucketKeyRegex)
  }

  predicate Compiles(lib: Lib, p: Policy) {
    PatternOk(lib, p.domainPattern) && PatternOk(lib, p.bucketKeyPattern)
  }

  method CompilePatterns(lib: Lib, p: Policy) returns (r: Option<Policy>)
    ensures r == if Compiles(lib, p) then Some(Compiled(p)) else None
    ensures r.Some? <==> forall q :: q in {p.domainPattern, p.bucketKeyPattern} && q != "" ==>
                           |q| <= 1024 && lib.compiles(q)
  {
    var q := p;
    if q.domainPattern != "" {
      if |q.domainPattern| > MAX_PATTERN_LENGTH || !lib.compiles(q.domainPattern) {
        return None;
      }
      q := q.(domainRegex := Some(q.domainPattern));
    }
    if q.bucketKeyPattern != "" {
      if |q.bucketKeyPattern| > MAX_PATTERN_LENGTH || !lib.compiles(q.bucketKeyPattern) {
        return None;
      }
      q := q.(bucketKeyRegex := Some(q.bucketKeyPattern));
    }
    return Some(q);
  }

  predicate Matches(lib: Lib, p: Policy, domain: string, key: BucketKey) {
    && (p.domainRegex.Some? ==> lib.matches(p.domainRegex.value, domain))
    && (p.bucketKeyRegex.Some? ==> lib.matches(p.bucketKeyRegex.value, key))
  }

  method NewPolicyEngine(lib: Lib, policies: seq<Policy>, default: Policy) returns (r: Option<QuotaEngine>)
    ensures r.Some? <==> Compiles(lib, default) && forall i :: 0 <= i < |policies| ==> Compiles(lib, policies[i])
    ensures r.Some? ==>
      var n := |policies|;
      r.value == PolicyEngine(seq(n, i requires 0 <= i < n => Compiled(policies[i])), Compiled(default))
  {
    var ps := policies;
    for i := 0 to |policies|
      invariant |ps| == |policies|
      invariant forall j :: 0 <= j < i ==> Compiles(lib, policies[j]) && ps[j] == Compiled(policies[j])
      invariant forall j :: i <= j < |policies| ==> ps[j] == policies[j]
    {
      var c := CompilePatterns(lib, ps[i]);
      if c.None? {
        return None;
      }
      ps := ps[i := c.value];
    }
    var d := CompilePatterns(lib, default);
    if d.None? {
      return None;
    }
    return Some(PolicyEngine(ps, d.value));
  }

  // ---------------------------------------------------------------------------------------------
  // ProcessUsage
  // ---------------------------------------------------------------------------------------------

  /** The first policy that matches, else the default. */
  function Chosen(lib: Lib, ps: seq<Policy>, default: Policy, domain: string, key: BucketKey): Policy {
    if ps == [] then default
    else if Matches(lib, ps[0], domain, key) then ps[0]
    else Chosen(lib, ps[1..], default, domain, key)
  }

  function AssignmentFor(lib: Lib, e: QuotaEngine, domain: string, key: BucketKey): Assignment {
    match e
    case DefaultEngine(a) => a
    case PolicyEngine(ps, d) => Chosen(lib, ps, d, domain, key).assignment
  }

  /** The answer to one report. */
  ghost function Reply(lib: Lib, e: QuotaEngine, domain: string, r: UsageReport): seq<BucketAction> {
    if HasBucket(r) then [Assign(r.id, AssignmentFor(lib, e, domain, CanonicalKey(r.id)))] else []
  }

  ghost function Process(lib: Lib, e: QuotaEngine, domain: string, rs: seq<UsageReport>): seq<BucketAction> {
    if rs == [] then [] else Process(lib, e, domain, rs[..|rs| - 1]) + Reply(lib, e, domain, rs[|rs| - 1])
  }

  /** Both engines' loops over the reports. */
  method ProcessUsage(lib: Lib, e: QuotaEngine, domain: string, reports: seq<UsageReport>)
    returns (actions: seq<BucketAction>)
    ensures actions == Process(lib, e, domain, reports)
  {
    actions := [];
    for i := 0 to |reports|
      invariant actions == Process(lib, e, domain, reports[..i])
    {
      var r := reports[i];
      assert reports[..i + 1][..i] == reports[..i];
      if r.id.None? || |r.id.value| == 0 {
        assert !HasBucket(r);
        continue;
      }
      assert HasBucket(r);
      var assignment;
      match e {
        case DefaultEngine(a) => assignment := a;
        case PolicyEngine(ps, d) =>
          var key := BucketKeyFromProto(r.id);
          var p := FindPolicy(lib, ps, d, domain, key);
          assignment := p.assignment;
      }
      actions := actions + [Assign(r.id, assignment)];
    }
    assert reports[..|reports|] == reports;
  }

  method FindPolicy(lib: Lib, ps: seq<Policy>, default: Policy, domain: string, key: BucketKey) returns (p: Policy)
    ensures p == Chosen(lib, ps, default, domain, key)
  {
    for i := 0 to |ps|
      invariant Chosen(lib, ps, default, domain, key) == Chosen(lib, ps[i..], default, domain, key)
    {
      if Matches(lib, ps[i], domain, key) {
        return ps[i];
      }
      assert ps[i..][1..] == ps[i + 1..];
    }
    return default;
  }

  /** Batches may be split anywhere. */
  lemma {:induction false} ProcessDistributes(lib: Lib, e: QuotaEngine, domain: string,
                                              a: seq<UsageReport>, b: seq<UsageReport>)
    ensures Process(lib, e, domain, a + b) == Process(lib, e, domain, a) + Process(lib, e, domain, b)
  {
    hide Reply;
    if b == [] {
      assert a + b == a;
    } else {
      var prev, r := b[..|b| - 1], Reply(lib, e, domain, b[|b| - 1]);
      ProcessDistributes(lib, e, domain, a, prev);
      assert (a + b)[..|a + b| - 1] == a + prev;
      AppendAssociates(Process(lib, e, domain, a), Process(lib, e, domain, prev), r);
    }
  }

  lemma AppendAssociates<T>(a: seq<T>, b: seq<T>, c: seq<T>)
    ensures (a + b) + c == a + (b + c)
  {}

  /** Usage counts do not influence assignments. */
  lemma {:induction false} ProcessIgnoresUsage(lib: Lib, e: QuotaEngine, domain: string,
                                               a: seq<UsageReport>, b: seq<UsageReport>)
    requires |a| == |b| && forall i :: 0 <= i < |a| ==> a[i].id == b[i].id
    ensures Process(lib, e, domain, a) == Process(lib, e, domain, b)
  {
    if a == [] {
    } else {
      ProcessIgnoresUsage(lib, e, domain, a[..|a| - 1], b[..|b| - 1]);
    }
  }

  /** The default engine is the policy engine without policies. */
  lemma {:induction false} DefaultIsEmptyPolicyEngine(lib: Lib, d: Policy, domain: string, rs: seq<UsageReport>)
    ensures Process(lib, DefaultEngine(d.assignment), domain, rs) == Process(lib, PolicyEngine([], d), domain, rs)
  {
    if rs == [] {
    } else {
      DefaultIsEmptyPolicyEngine(lib, d, domain, rs[..|rs| - 1]);
    }
  }

  // ---------------------------------------------------------------------------------------------
  // Building from configuration
  // ---------------------------------------------------------------------------------------------

  function ParseTimeUnit(lib: Lib, s: string): TimeUnit {
    var u := lib.toUpper(s);
    if u == "SECOND" then SECOND
    else if u == "MINUTE" then MINUTE
    else if u == "HOUR" then HOUR
    else if u == "DAY" then DAY
    else if u == "MONTH" then MONTH
    else if u == "YEAR" then YEAR
    else SECOND
  }

  function TokenBucketOf(tokens: uint64, interval: Duration): Strategy {
    TokenBucket(ToUint32(tokens), ToUint32(tokens), interval)
  }

  function BuildStrategy(lib: Lib, pc: PolicyConfig, interval: Duration): Strategy {
    if pc.strategy == "deny" then DenyAll
    else if pc.strategy == "allow" then AllowAll
    else if pc.strategy == "requests_per_time_unit"
    then RequestsPerTimeUnit(pc.requestsPerTimeUnit, ParseTimeUnit(lib, pc.timeUnit))
    else TokenBucketOf(pc.tokensPerFill, interval)
  }

  function DefaultTTL(ec: EngineConfig): Duration {
    Wrap64(ec.reportingInterval * 2)
  }

  function DefaultAssignment(ec: EngineConfig): Assignment {
    Assignment(Some(DefaultTTL(ec)), Some(TokenBucketOf(ec.defaultTokensPerFill, ec.reportingInterval)))
  }

  /** What a policy entry of the configuration assigns. */
  function ConfiguredAssignment(lib: Lib, ec: EngineConfig, pc: PolicyConfig): Assignment {
    Assignment(Some(if pc.assignmentTTL.Some? then pc.assignmentTTL.value else DefaultTTL(ec)),
               Some(BuildStrategy(lib, pc, ec.reportingInterval)))
  }

  function PolicyOf(lib: Lib, ec: EngineConfig, pc: PolicyConfig): Policy {
    Policy(pc.domainPattern, pc.bucketKeyPattern, ConfiguredAssignment(lib, ec, pc), pc.denyResponse, None, None)
  }

  function DefaultPolicyOf(ec: EngineConfig): Policy {
    Policy("", "", DefaultAssignment(ec), None, None, None)
  }

  predicate Builds(lib: Lib, ec: EngineConfig) {
    forall i :: 0 <= i < |ec.policies| ==>
      PatternOk(lib, ec.policies[i].domainPattern) && PatternOk(lib, ec.policies[i].bucketKeyPattern)
  }

  function EngineOf(lib: Lib, ec: EngineConfig): QuotaEngine {
    if ec.policies == [] then DefaultEngine(DefaultAssignment(ec))
    else
      var n := |ec.policies|;
      PolicyEngine(seq(n, i requires 0 <= i < n => Compiled(PolicyOf(lib, ec, ec.policies[i]))), DefaultPolicyOf(ec))
  }

  /** A token bucket carries the configured number of tokens exactly when it fits in 32 bits. */
  lemma TokensExactIff(lib: Lib, pc: PolicyConfig, interval: Duration)
    requires BuildStrategy(lib, pc, interval).TokenBucket?
    ensures var s := BuildStrategy(lib, pc, interval);
            && s.maxTokens == s.tokensPerFill && s.fillInterval == interval
            && (s.maxTokens == pc.tokensPerFill <==> pc.tokensPerFill < TWO32)
            && (pc.tokensPerFill - s.maxTokens) % TWO32 == 0
  {}

  /** The default time to live is twice the reporting interval exactly when that does not overflow. */
  lemma DefaultTTLExactIff(ec: EngineConfig)
    requires -HALF64 <= ec.reportingInterval < HALF64
    ensures DefaultTTL(ec) == 2 * ec.reportingInterval <==> -HALF64 <= 2 * ec.reportingInterval < HALF64
  {}

  // ---------------------------------------------------------------------------------------------
  // What a configuration means
  // ---------------------------------------------------------------------------------------------

  /** A policy entry applies to a bucket; an empty pattern applies to everything. */
  predicate Applies(lib: Lib, pc: PolicyConfig, domain: string, key: BucketKey) {
    && (pc.domainPattern == "" || lib.matches(pc.domainPattern, domain))
    && (pc.bucketKeyPattern == "" || lib.matches(pc.bucketKeyPattern, key))
  }

  /** The unit of that name, in whatever case; seconds if there is none. */
  predicate UnitMeans(lib: Lib, name: string, u: TimeUnit) {
    && (u == MINUTE <==> lib.toUpper(name) == "MINUTE")
    && (u == HOUR <==> lib.toUpper(name) == "HOUR")
    && (u == DAY <==> lib.toUpper(name) == "DAY")
    && (u == MONTH <==> lib.toUpper(name) == "MONTH")
    && (u == YEAR <==> lib.toUpper(name) == "YEAR")
  }

  /** A bucket of the configured tokens, modulo 2^32, filled once per reporting interval. */
  predicate BucketMeans(tokens: uint64, interval: Duration, s: Strategy) {
    && s.TokenBucket? && s.maxTokens == s.tokensPerFill && s.fillInterval == interval
    && (tokens - s.maxTokens) % TWO32 == 0
  }

  predicate StrategyMeans(lib: Lib, ec: EngineConfig, pc: PolicyConfig, s: Strategy) {
    && (s.DenyAll? <==> pc.strategy == "deny")
    && (s.AllowAll? <==> pc.strategy == "allow")
    && (s.RequestsPerTimeUnit? <==> pc.strategy == "requests_per_time_unit")
    && (s.RequestsPerTimeUnit? ==> s.requests == pc.requestsPerTimeUnit && UnitMeans(lib, pc.timeUnit, s.unit))
    && (s.TokenBucket? ==> BucketMeans(pc.tokensPerFill, ec.reportingInterval, s))
  }

  /** Twice the reporting interval, modulo 2^64. */
  predicate TTLMeans(ec: EngineConfig, ttl: Duration) {
    -HALF64 <= ttl < HALF64 && (2 * ec.reportingInterval - ttl) % TWO64 == 0
  }

  /** What an entry says: its own time to live if it has one, and its strategy by name. */
  predicate EntryMeans(lib: Lib, ec: EngineConfig, pc: PolicyConfig, a: Assignment) {
    && a.strategy.Some? && StrategyMeans(lib, ec, pc, a.strategy.value)
    && a.ttl.Some? && if pc.assignmentTTL.Some? then a.ttl == pc.assignmentTTL else TTLMeans(ec, a.ttl.value)
  }

  predicate DefaultMeans(ec: EngineConfig, a: Assignment) {
    && a.strategy.Some? && BucketMeans(ec.defaultTokensPerFill, ec.reportingInterval, a.strategy.value)
    && a.ttl.Some? && TTLMeans(ec, a.ttl.value)
  }

  /** `a` is what the first applicable entry says, or the default if no entry applies. */
  ghost predicate Means(lib: Lib, ec: EngineConfig, domain: string, key: BucketKey, a: Assignment) {
    var ps := ec.policies;
    || (exists i :: 0 <= i < |ps| && Applies(lib, ps[i], domain, key)
          && (forall j :: 0 <= j < i ==> !Applies(lib, ps[j], domain, key))
          && EntryMeans(lib, ec, ps[i], a))
    || ((forall i :: 0 <= i < |ps| ==> !Applies(lib, ps[i], domain, key)) && DefaultMeans(ec, a))
  }

  lemma ParsedUnitMeans(lib: Lib, name: string)
    ensures UnitMeans(lib, name, ParseTimeUnit(lib, name))
  {
    assert |"SECOND"| == |"MINUTE"| == 6 && "SECOND"[0] != "MINUTE"[0];
    assert |"HOUR"| == |"YEAR"| == 4 && "HOUR"[0] != "YEAR"[0];
    assert |"DAY"| == 3 && |"MONTH"| == 5;
  }

  lemma BuiltStrategyMeans(lib: Lib, ec: EngineConfig, pc: PolicyConfig)
    ensures StrategyMeans(lib, ec, pc, BuildStrategy(lib, pc, ec.reportingInterval))
  {
    hide UnitMeans, ParseTimeUnit;
    ParsedUnitMeans(lib, pc.timeUnit);
    assert |"deny"| == 4 && |"allow"| == 5 && |"requests_per_time_unit"| == 22;
  }

  lemma ConfiguredMeans(lib: Lib, ec: EngineConfig, pc: PolicyConfig)
    ensures EntryMeans(lib, ec, pc, ConfiguredAssignment(lib, ec, pc))
  {
    hide StrategyMeans, BuildStrategy;
    BuiltStrategyMeans(lib, ec, pc);
  }

  lemma {:induction false} ChosenIsFirst(lib: Lib, ps: seq<Policy>, default: Policy, domain: string, key: BucketKey)
    ensures var p := Chosen(lib, ps, default, domain, key);
            || (exists i :: 0 <= i < |ps| && Matches(lib, ps[i], domain, key) && p == ps[i]
                  && forall j :: 0 <= j < i ==> !Matches(lib, ps[j], domain, key))
            || ((forall i :: 0 <= i < |ps| ==> !Matches(lib, ps[i], domain, key)) && p == default)
  {
    if ps == [] {
    } else {
      if Matches(lib, ps[0], domain, key) {
        assert Chosen(lib, ps, default, domain, key) == ps[0];
      } else {
        ChosenIsFirst(lib, ps[1..], default, domain, key);
        var p := Chosen(lib, ps[1..], default, domain, key);
        if i :| 0 <= i < |ps[1..]| && Matches(lib, ps[1..][i], domain, key) && p == ps[1..][i]
                && forall j :: 0 <= j < i ==> !Matches(lib, ps[1..][j], domain, key) {
          assert ps[i + 1] == p;
          forall j | 0 <= j < i + 1 ensures !Matches(lib, ps[j], domain, key) {
            assert j > 0 ==> ps[j] == ps[1..][j - 1];
          }
        } else {
          forall j | 0 <= j < |ps| ensures !Matches(lib, ps[j], domain, key) {
            assert j > 0 ==> ps[j] == ps[1..][j - 1];
          }
        }
      }
    }
  }

  lemma DefaultIsMeant(lib: Lib, ec: EngineConfig)
    ensures DefaultMeans(ec, DefaultAssignment(ec))
  {}

  lemma CompiledApplies(lib: Lib, ec: EngineConfig, pc: PolicyConfig, domain: string, key: BucketKey)
    ensures Matches(lib, Compiled(PolicyOf(lib, ec, pc)), domain, key) <==> Applies(lib, pc, domain, key)
  {}

  /** A built engine assigns what its configuration means. */
  lemma EngineAssignsMeaning(lib: Lib, ec: EngineConfig, domain: string, key: BucketKey)
    ensures Means(lib, ec, domain, key, AssignmentFor(lib, EngineOf(lib, ec), domain, key))
  {
    hide EntryMeans, DefaultMeans, ConfiguredAssignment, DefaultAssignment, Applies;
    DefaultIsMeant(lib, ec);
    if ec.policies != [] {
      var e := EngineOf(lib, ec);
      forall i | 0 <= i < |ec.policies|
        ensures EntryMeans(lib, ec, ec.policies[i], e.policies[i].assignment)
      {
        ConfiguredMeans(lib, ec, ec.policies[i]);
      }
      forall i | 0 <= i < |ec.policies|
        ensures Matches(lib, e.policies[i], domain, key) <==> Applies(lib, ec.policies[i], domain, key)
      {
        CompiledApplies(lib, ec, ec.policies[i], domain, key);
      }
      ChosenIsFirst(lib, e.policies, e.default, domain, key);
    }
  }

  method BuildEngine(lib: Lib, ec: EngineConfig) returns (r: Option<QuotaEngine>)
    ensures r == if Builds(lib, ec) then Some(EngineOf(lib, ec)) else None
    ensures r.Some? ==> forall domain, key :: Means(lib, ec, domain, key, AssignmentFor(lib, r.value, domain, key))
  {
    hide Means, AssignmentFor, BuildStrategy;
    forall domain, key ensures Means(lib, ec, domain, key, AssignmentFor(lib, EngineOf(lib, ec), domain, key)) {
      EngineAssignsMeaning(lib, ec, domain, key);
    }
    if |ec.policies| == 0 {
      return Some(DefaultEngine(DefaultAssignment(ec)));
    }
    var policies: seq<Policy> := [];
    for i := 0 to |ec.policies|
      invariant |policies| == i
      invariant forall j :: 0 <= j < i ==> policies[j] == PolicyOf(lib, ec, ec.policies[j])
    {
      var pc := ec.policies[i];
      var ttl := if pc.assignmentTTL.Some? then pc.assignmentTTL.value else DefaultTTL(ec);
      var strategy := BuildStrategy(lib, pc, ec.reportingInterval);
      policies := policies + [Policy(pc.domainPattern, pc.bucketKeyPattern, Assignment(Some(ttl), Some(strategy)),
                                     pc.denyResponse, None, None)];
    }
    assert forall j :: 0 <= j < |policies| ==>
      (Compiles(lib, policies[j])
       <==> PatternOk(lib, ec.policies[j].domainPattern) && PatternOk(lib, ec.policies[j].bucketKeyPattern));
    r := NewPolicyEngine(lib, policies, DefaultPolicyOf(ec));
    assert Compiled(DefaultPolicyOf(ec)) == DefaultPolicyOf(ec);
    if r.Some? {
      assert r.value.policies == EngineOf(lib, ec).policies;
    }
  }

  /**
    End to end: a built engine answers each report that names a bucket with exactly one assignment, in
    order and for the same bucket id, and that assignment is what the configuration means for it.
  */
  lemma {:induction false} EngineMeaning(lib: Lib, ec: EngineConfig, domain: string, rs: seq<UsageReport>)
    ensures var actions, valid := Process(lib, EngineOf(lib, ec), domain, rs), WithBucket(rs);
            && |actions| == |valid|
            && forall i :: 0 <= i < |valid| ==>
                 && actions[i].Assign? && actions[i].id == valid[i].id
                 && Means(lib, ec, domain, CanonicalKey(valid[i].id), actions[i].assignment)
  {
    hide Means, AssignmentFor, EngineOf;
    if rs == [] {
    } else {
      EngineMeaning(lib, ec, domain, rs[..|rs| - 1]);
      EngineAssignsMeaning(lib, ec, domain, CanonicalKey(rs[|rs| - 1].id));
    }
  }
}

/** Proactive pushes with the real engines. */
module Push {
  import opened Keys
  import opened Memory
  import opened Api
  import opened Protocol
  import opened Classifier
  import E = Engine
  import opened Server

  /** The engine as the server calls it; it never fails. */
  ghost function AsEngine(lib: Lib, e: E.QuotaEngine): Api.Engine {
    (domain: string, rs: seq<UsageReport>) => Some(E.Process(lib, e, domain, rs))
  }

  /**
    A push to a bound stream sends, for each subscription exactly once, the assignment that a real
    report for that bucket would get from the same engine, whatever usage it carried.
  */
  lemma PushMatchesReports(lib: Lib, e: E.QuotaEngine, l: Limits, st: Stream, actions: seq<BucketAction>)
    requires StreamOk(l, st) && st.bound && Pushes(AsEngine(lib, e), st, actions)
    ensures exists keys :: OneEach(lib, e, st, keys, actions)
  {
    hide E.Process, OneEach;
    if st.subs == map[] {
      NothingToPush(lib, e, st);
    } else {
      var reports, keys :| IsSnapshot(reports, keys, st.subs)
        && var answer := AsEngine(lib, e)(st.domain, reports); actions == if answer.Some? then answer.value else [];
      SnapshotOneEach(lib, e, l, st, reports, keys);
    }
  }

  lemma NothingToPush(lib: Lib, e: E.QuotaEngine, st: Stream)
    requires st.subs == map[]
    ensures OneEach(lib, e, st, [], [])
  {}

  lemma SnapshotOneEach(lib: Lib, e: E.QuotaEngine, l: Limits, st: Stream, reports: seq<UsageReport>,
                        keys: seq<BucketKey>)
    requires SubsOk(l, st) && IsSnapshot(reports, keys, st.subs)
    ensures OneEach(lib, e, st, keys, E.Process(lib, e, st.domain, reports))
  {
    hide E.Process, E.Reply, KeyOf, ValidBucket, Elements, NoDuplicates;
    OneActionEach(lib, e, st.domain, reports);
    var actions := E.Process(lib, e, st.domain, reports);
    forall i, u | 0 <= i < |keys|
      ensures E.Process(lib, e, st.domain, [UsageReport(Some(st.subs[keys[i]]), u)]) == [actions[i]]
    {
      E.ProcessIgnoresUsage(lib, e, st.domain, [reports[i]], [UsageReport(Some(st.subs[keys[i]]), u)]);
      ProcessOne(lib, e, st.domain, reports[i]);
    }
  }

  /** The keys are all subscriptions, and `actions[i]` is the answer to any report for `keys[i]`. */
  ghost predicate OneEach(lib: Lib, e: E.QuotaEngine, st: Stream, keys: seq<BucketKey>, actions: seq<BucketAction>) {
    && NoDuplicates(keys) && Elements(keys) == st.subs.Keys && |keys| == |actions|
    && (forall i :: 0 <= i < |keys| ==> keys[i] in st.subs)
    && forall i, u :: 0 <= i < |keys| ==>
         E.Process(lib, e, st.domain, [UsageReport(Some(st.subs[keys[i]]), u)]) == [actions[i]]
  }

  lemma ProcessOne(lib: Lib, e: E.QuotaEngine, domain: string, r: UsageReport)
    ensures E.Process(lib, e, domain, [r]) == E.Reply(lib, e, domain, r)
  {
    hide E.Reply;
    assert [r][..|[r]| - 1] == [];
  }

  lemma {:induction false} OneActionEach(lib: Lib, e: E.QuotaEngine, domain: string, rs: seq<UsageReport>)
    requires forall i :: 0 <= i < |rs| ==> HasBucket(rs[i])
    ensures var actions := E.Process(lib, e, domain, rs);
            |actions| == |rs| && forall i :: 0 <= i < |rs| ==> E.Reply(lib, e, domain, rs[i]) == [actions[i]]
  {
    hide E.AssignmentFor, CanonicalKey;
    if rs == [] {
    } else {
      OneActionEach(lib, e, domain, rs[..|rs| - 1]);
    }
  }
}
