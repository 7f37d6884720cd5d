/** The messages exchanged with clients, as far as the server looks at them. */
module Api {
  import opened Keys
  import opened Memory

  type uint32 = x: int | 0 <= x < 0x1_0000_0000

  datatype TimeUnit = SECOND | MINUTE | HOUR | DAY | MONTH | YEAR

  /** A duration in nanoseconds. */
  type Duration = int

  datatype Strategy =
    | DenyAll
    | AllowAll
    | RequestsPerTimeUnit(requests: uint64, unit: TimeUnit)
    | TokenBucket(maxTokens: uint32, tokensPerFill: uint32, fillInterval: Duration)

  datatype Assignment = Assignment(ttl: Option<Duration>, strategy: Option<Strategy>)

  datatype BucketAction =
    | Assign(id: Option<BucketId>, assignment: Assignment)
    | Abandon(id: Option<BucketId>)

  predicate HasBucket(r: UsageReport) {
    r.id.Some? && r.id.value != map[]
  }

  /** The reports that name a bucket. */
  function WithBucket(rs: seq<UsageReport>): seq<UsageReport> {
    if rs == [] then [] else WithBucket(rs[..|rs| - 1]) + if HasBucket(rs[|rs| - 1]) then [rs[|rs| - 1]] else []
  }

  /** A quota engine as the server sees it: any answer at all, or an error (`None`). */
  type Engine = (string, seq<UsageReport>) -> Option<seq<BucketAction>>
}

/**
  The stream, subscription and reference-count protocol (internal/server/server.go) as a transition
  system. A move is what one goroutine does up to and including one critical section or one atomic
  operation on shared state, so a run is any interleaving of any number of streams. Proactive pushes
  and statistics only read, hence are not moves.
*/
module Protocol {
  import opened Keys
  import opened Memory
  import opened Api

  type Sid = nat
  type Metric = string

  datatype Limits = Limits(
    maxBucketsPerStream: int, maxReportsPerMessage: int,
    maxBucketEntries: int, maxBucketKeyLen: int, maxBucketValueLen: int)

  datatype Request = Request(domain: string, usages: seq<UsageReport>)

  /** Where a stream's goroutine stands; each constructor names the section it will enter next. */
  datatype Pc =
    | Idle                                                                        // waiting in Recv
    | Reporting(usages: seq<UsageReport>, reports: seq<UsageReport>)              // subscription check
    | Counting(key: BucketKey, usages: seq<UsageReport>, reports: seq<UsageReport>)
    | Gauging(key: BucketKey, usages: seq<UsageReport>, reports: seq<UsageReport>)
    | Recording(key: BucketKey, usages: seq<UsageReport>, reports: seq<UsageReport>)
    | Acting(actions: seq<BucketAction>, reply: seq<BucketAction>)                // abandon check
    | Uncounting(key: BucketKey, actions: seq<BucketAction>, reply: seq<BucketAction>)
    | Removing(key: BucketKey, actions: seq<BucketAction>, reply: seq<BucketAction>)
    | Ungauging(key: BucketKey, actions: seq<BucketAction>, reply: seq<BucketAction>)
    | Closing                                                                     // cleanup begins
    | Draining(rest: set<BucketKey>)
    | DrainUncounting(key: BucketKey, rest: set<BucketKey>)
    | DrainRemoving(key: BucketKey, rest: set<BucketKey>)
    | Done

  datatype Stream = Stream(domain: string, metric: Metric, bound: bool, subs: map<BucketKey, BucketId>, pc: Pc)

  const OPENED := Stream("", "", false, map[], Idle)

  /** What the environment decides at a move. */
  datatype Choice =
    | Recv(req: Request, metric: Metric)   // a message, and the classifier's answer should it be asked
    | RecvFailed                         // end of stream or a receive error
    | Consult(engine: Engine)            // the engine installed at that moment
    | Send(ok: bool)
    | Visit(key: BucketKey)              // the key ranged over next during cleanup
    | Go

  /** What a move does to shared state. */
  datatype Effect =
    | Nothing
    | Join
    | Leave
    | Inc(key: BucketKey)
    | Dec(key: BucketKey)
    | GaugeUp(metric: Metric)
    | GaugeDown(metric: Metric)
    | Record(key: BucketKey, usage: UsageState)
    | Remove(key: BucketKey)
    | Reply(actions: seq<BucketAction>)

  // ---------------------------------------------------------------------------------------------
  // What one stream does
  // ---------------------------------------------------------------------------------------------

  function Scoped(st: Stream, key: BucketKey): BucketKey {
    DomainScopedKey(st.domain, key)
  }

  predicate WithinLimit(n: int, limit: int) {
    limit > 0 ==> n <= limit
  }

  predicate ValidBucket(l: Limits, id: BucketId) {
    && WithinLimit(|id|, l.maxBucketEntries)
    && forall k :: k in id ==>
         k != "" && id[k] != "" && WithinLimit(|k|, l.maxBucketKeyLen) && WithinLimit(|id[k]|, l.maxBucketValueLen)
  }

  /** Domain binding, domain check, and the message-size checks. */
  function Receive(l: Limits, st: Stream, req: Request, metric: Metric): Stream {
    if !st.bound && req.domain == "" then st.(pc := Closing)
    else
      var b := if st.bound then st else st.(domain := req.domain, metric := metric, bound := true);
      if req.domain != "" && req.domain != b.domain then b.(pc := Closing)
      else if req.usages == [] then b
      else if !WithinLimit(|req.usages|, l.maxReportsPerMessage) then b.(pc := Closing)
      else b.(pc := Reporting(req.usages, []))
  }

  /** One usage report up to its subscription check. */
  ghost function TakeUsage(l: Limits, st: Stream): Stream
    requires st.pc.Reporting? && st.pc.usages != []
  {
    var u, us, rs := st.pc.usages[0], st.pc.usages, st.pc.reports;
    if u.id.None? || |u.id.value| == 0 then st.(pc := Reporting(us[1..], rs))
    else if !ValidBucket(l, u.id.value) then st.(pc := Closing)
    else
      var key := KeyOf(u.id.value);
      if key in st.subs then st.(pc := Recording(key, us, rs))
      else if l.maxBucketsPerStream > 0 && |st.subs| >= l.maxBucketsPerStream then st.(pc := Closing)
      else st.(subs := st.subs[key := u.id.value], pc := Counting(key, us, rs))
  }

  function Answer(st: Stream, engine: Engine): Stream
    requires st.pc.Reporting?
  {
    match engine(st.domain, st.pc.reports)
    case None => st.(pc := Closing)
    case Some(actions) => if actions == [] then st.(pc := Idle) else st.(pc := Acting(actions, actions))
  }

  ghost function TakeAction(st: Stream): Stream
    requires st.pc.Acting? && st.pc.actions != []
  {
    var a, rest, reply := st.pc.actions[0], st.pc.actions[1..], st.pc.reply;
    var key := CanonicalKey(a.id);
    if a.Abandon? && key in st.subs
    then st.(subs := st.subs - {key}, pc := Uncounting(key, rest, reply))
    else st.(pc := Acting(rest, reply))
  }

  /** One move; `last` tells a decrement whether it found the count at one. */
  ghost function Local(l: Limits, st: Stream, c: Choice, last: bool): Option<(Stream, Effect)> {
    match st.pc
    case Idle =>
      if c.Recv? then Some((Receive(l, st, c.req, c.metric), Nothing))
      else if c.RecvFailed? then Some((st.(pc := Closing), Nothing)) else None
    case Reporting(us, rs) =>
      if us != [] then (if c.Go? then Some((TakeUsage(l, st), Nothing)) else None)
      else if c.Consult? then Some((Answer(st, c.engine), Nothing)) else None
    case Counting(key, us, rs) =>
      if c.Go? then Some((st.(pc := Gauging(key, us, rs)), Inc(Scoped(st, key)))) else None
    case Gauging(key, us, rs) =>
      if c.Go? then Some((st.(pc := Recording(key, us, rs)), GaugeUp(st.metric))) else None
    case Recording(key, us, rs) =>
      if c.Go? && us != []
      then Some((st.(pc := Reporting(us[1..], rs + [us[0]])), Record(Scoped(st, key), us[0].usage))) else None
    case Acting(actions, reply) =>
      if actions != [] then (if c.Go? then Some((TakeAction(st), Nothing)) else None)
      else if c.Send? then Some((st.(pc := if c.ok then Idle else Closing), Reply(reply))) else None
    case Uncounting(key, actions, reply) =>
      if c.Go?
      then Some((st.(pc := if last then Removing(key, actions, reply) else Ungauging(key, actions, reply)),
                 Dec(Scoped(st, key))))
      else None
    case Removing(key, actions, reply) =>
      if c.Go? then Some((st.(pc := Ungauging(key, actions, reply)), Remove(Scoped(st, key)))) else None
    case Ungauging(key, actions, reply) =>
      if c.Go? then Some((st.(pc := Acting(actions, reply)), GaugeDown(st.metric))) else None
    case Closing =>
      if c.Go? then Some((st.(pc := if st.bound then Draining(st.subs.Keys) else Done), Leave)) else None
    case Draining(rest) =>
      if rest == {} && c.Go? then Some((st.(pc := Done), Nothing))
      else if c.Visit? && c.key in rest
      then Some((st.(pc := DrainUncounting(c.key, rest - {c.key})), GaugeDown(st.metric)))
      else None
    case DrainUncounting(key, rest) =>
      if c.Go?
      then Some((st.(pc := if last then DrainRemoving(key, rest) else Draining(rest)), Dec(Scoped(st, key))))
      else None
    case DrainRemoving(key, rest) =>
      if c.Go? then Some((st.(pc := Draining(rest)), Remove(Scoped(st, key)))) else None
    case Done => None
  }

  // ---------------------------------------------------------------------------------------------
  // The whole server
  // ---------------------------------------------------------------------------------------------

  datatype Shared = Shared(
    live: set<Sid>,              // RLQSServer.streams
    refs: map<BucketKey, int>,   // RLQSServer.bucketRefs
    store: Buckets,              // the in-memory bucket store
    gauge: map<Metric, int>)      // the ActiveBuckets gauge

  /** Every stream ever opened, the shared state, and the effects so far. */
  datatype State = State(streams: map<Sid, Stream>, shared: Shared, log: seq<Effect>)

  const INITIAL := State(map[], Shared({}, map[], map[], map[]), [])

  /** Reading a Go map: a missing key reads as zero. */
  function At<K>(m: map<K, int>, k: K): int {
    if k in m then m[k] else 0
  }

  function Apply(sh: Shared, sid: Sid, e: Effect): Shared {
    match e
    case Join => sh.(live := sh.live + {sid})
    case Leave => sh.(live := sh.live - {sid})
    case Inc(k) => sh.(refs := sh.refs[k := At(sh.refs, k) + 1])
    case Dec(k) => sh.(refs := if At(sh.refs, k) - 1 <= 0 then sh.refs - {k} else sh.refs[k := At(sh.refs, k) - 1])
    case GaugeUp(lb) => sh.(gauge := sh.gauge[lb := At(sh.gauge, lb) + 1])
    case GaugeDown(lb) => sh.(gauge := sh.gauge[lb := At(sh.gauge, lb) - 1])
    case Record(k, u) => sh.(store := Add(sh.store, k, u))
    case Remove(k) => sh.(store := Memory.Remove(sh.store, k))
    case Nothing => sh
    case Reply(_) => sh
  }

  datatype Move = Open(sid: Sid) | Act(sid: Sid, choice: Choice)

  function IsLast(sh: Shared, st: Stream): bool {
    (st.pc.Uncounting? || st.pc.DrainUncounting?) && At(sh.refs, Scoped(st, st.pc.key)) - 1 <= 0
  }

  ghost function Next(l: Limits, s: State, m: Move): Option<State> {
    match m
    case Open(sid) =>
      if sid in s.streams then None
      else Some(State(s.streams[sid := OPENED], Apply(s.shared, sid, Join), s.log + [Join]))
    case Act(sid, c) =>
      if sid !in s.streams then None
      else
        match Local(l, s.streams[sid], c, IsLast(s.shared, s.streams[sid]))
        case None => None
        case Some((st, e)) => Some(State(s.streams[sid := st], Apply(s.shared, sid, e), s.log + [e]))
  }

  /** The state after a sequence of moves, if all of them were possible. */
  ghost function RunFrom(l: Limits, s: State, ms: seq<Move>): Option<State> {
    if ms == [] then Some(s)
    else
      var prev := RunFrom(l, s, ms[..|ms| - 1]);
      if prev.None? then None else Next(l, prev.value, ms[|ms| - 1])
  }

  ghost function Run(l: Limits, ms: seq<Move>): Option<State> {
    RunFrom(l, INITIAL, ms)
  }

  lemma {:induction false} RunFromAppend(l: Limits, s: State, ms: seq<Move>, ns: seq<Move>)
    requires RunFrom(l, s, ms).Some?
    ensures RunFrom(l, s, ms + ns) == RunFrom(l, RunFrom(l, s, ms).value, ns)
  {
    if ns == [] {
      assert ms + ns == ms;
    } else {
      RunFromAppend(l, s, ms, ns[..|ns| - 1]);
      assert (ms + ns)[..|ms + ns| - 1] == ms + ns[..|ns| - 1];
    }
  }

  // ---------------------------------------------------------------------------------------------
  // What a stream holds, read off its subscriptions and its position
  // ---------------------------------------------------------------------------------------------

  /** Bucket keys the stream has counted and not yet uncounted. */
  function HeldKeys(st: Stream): set<BucketKey> {
    match st.pc
    case Counting(key, _, _) => st.subs.Keys - {key}
    case Uncounting(key, _, _) => st.subs.Keys + {key}
    case Draining(rest) => rest
    case DrainUncounting(key, rest) => rest + {key}
    case DrainRemoving(_, rest) => rest
    case Done => {}
    case _ => st.subs.Keys
  }

  /** The same as scoped keys. */
  ghost function Held(st: Stream): set<BucketKey> {
    set b | b in HeldKeys(st) :: Scoped(st, b)
  }

  /** Bucket keys the stream has added to the gauge and not yet taken off. */
  function Gauged(st: Stream): set<BucketKey> {
    match st.pc
    case Counting(key, _, _) => st.subs.Keys - {key}
    case Gauging(key, _, _) => st.subs.Keys - {key}
    case Uncounting(key, _, _) => st.subs.Keys + {key}
    case Removing(key, _, _) => st.subs.Keys + {key}
    case Ungauging(key, _, _) => st.subs.Keys + {key}
    case Draining(rest) => rest
    case DrainUncounting(_, rest) => rest
    case DrainRemoving(_, rest) => rest
    case Done => {}
    case _ => st.subs.Keys
  }

  /** The scoped key the stream decided to remove from the store and has not removed yet. */
  function Waiting(st: Stream): set<BucketKey> {
    if st.pc.Removing? || st.pc.DrainRemoving? then {Scoped(st, st.pc.key)} else {}
  }

  predicate InServer(st: Stream) {
    !st.pc.Draining? && !st.pc.DrainUncounting? && !st.pc.DrainRemoving? && !st.pc.Done?
  }

  /** Between a message or cleanup and the next. */
  predicate Quiet(st: Stream) {
    st.pc.Idle? || st.pc.Closing? || st.pc.Done?
  }

  // ---------------------------------------------------------------------------------------------
  // The invariant of one stream
  // ---------------------------------------------------------------------------------------------

  /** Subscriptions are keyed canonically by ids that passed every limit, and there are not too many. */
  ghost predicate SubsOk(l: Limits, st: Stream) {
    && WithinLimit(|st.subs|, l.maxBucketsPerStream)
    && forall k :: k in st.subs ==> k == KeyOf(st.subs[k]) && st.subs[k] != map[] && ValidBucket(l, st.subs[k])
  }

  ghost predicate PcOk(st: Stream) {
    match st.pc
    case Counting(key, us, _) => key in st.subs && us != [] && key == CanonicalKey(us[0].id)
    case Gauging(key, us, _) => key in st.subs && us != [] && key == CanonicalKey(us[0].id)
    case Recording(key, us, _) => key in st.subs && us != [] && key == CanonicalKey(us[0].id)
    case Uncounting(key, _, _) => key !in st.subs
    case Removing(key, _, _) => key !in st.subs
    case Ungauging(key, _, _) => key !in st.subs
    case Draining(rest) => rest <= st.subs.Keys
    case DrainUncounting(key, rest) => rest <= st.subs.Keys && key !in rest
    case DrainRemoving(key, rest) => rest <= st.subs.Keys && key !in rest
    case _ => true
  }

  ghost predicate StreamOk(l: Limits, st: Stream) {
    && (st.bound ==> st.domain != "")
    && (!st.bound ==> st.subs == map[] && Quiet(st))
    && SubsOk(l, st)
    && PcOk(st)
  }

  // How the effect of a move shows in what its stream holds.

  ghost predicate CountAccounted(st: Stream, e: Effect, st': Stream) {
    match e
    case Inc(k) => k !in Held(st) && Held(st') == Held(st) + {k}
    case Dec(k) => k in Held(st) && Held(st') == Held(st) - {k}
    case Record(k, _) => k in Held(st) && Held(st') == Held(st)
    case _ => Held(st') == Held(st)
  }

  predicate RemovalAccounted(st: Stream, e: Effect, st': Stream, last: bool) {
    match e
    case Dec(k) => Waiting(st) == {} && Waiting(st') == if last then {k} else {}
    case Remove(k) => Waiting(st) == {k} && Waiting(st') == {}
    case _ => Waiting(st') == Waiting(st)
  }

  ghost predicate OneMore(a: set<BucketKey>, b: set<BucketKey>) {
    exists x :: x !in a && b == a + {x}
  }

  ghost predicate GaugeAccounted(st: Stream, e: Effect, st': Stream) {
    match e
    case GaugeUp(lb) => lb == st.metric == st'.metric && OneMore(Gauged(st), Gauged(st'))
    case GaugeDown(lb) => lb == st.metric == st'.metric && OneMore(Gauged(st'), Gauged(st))
    case _ => Gauged(st') == Gauged(st) && (Gauged(st) != {} ==> st'.metric == st.metric)
  }

  predicate MembershipAccounted(st: Stream, e: Effect, st': Stream) {
    !e.Join? && (InServer(st') <==> InServer(st) && !e.Leave?) && (e.Leave? ==> InServer(st))
  }

  /** Once bound, a stream keeps its domain and its metric label. */
  predicate SameBinding(st: Stream, st': Stream) {
    st.bound ==> st'.bound && st'.domain == st.domain && st'.metric == st.metric
  }

  lemma TakeUsageOk(l: Limits, st: Stream)
    requires StreamOk(l, st) && st.pc.Reporting? && st.pc.usages != []
    ensures var st' := TakeUsage(l, st);
            StreamOk(l, st') && SameBinding(st, st')
  {
    hide KeyOf, ValidBucket;
    var u := st.pc.usages[0];
    if u.id.Some? && |u.id.value| > 0 && ValidBucket(l, u.id.value) {
      assert u.id.value != map[];
      assert |st.subs[KeyOf(u.id.value) := u.id.value]| <= |st.subs| + 1;
    }
  }

  lemma TakeActionOk(l: Limits, st: Stream)
    requires StreamOk(l, st) && st.pc.Acting? && st.pc.actions != []
    ensures var st' := TakeAction(st);
            StreamOk(l, st') && SameBinding(st, st')
  {
    hide KeyOf, CanonicalKey, ValidBucket;
    SubsetSize(TakeAction(st).subs.Keys, st.subs.Keys);
  }

  /** Every move keeps the invariant of its stream. */
  lemma LocalOk(l: Limits, st: Stream, c: Choice, last: bool)
    requires StreamOk(l, st) && Local(l, st, c, last).Some?
    ensures var (st', _) := Local(l, st, c, last).value;
            StreamOk(l, st') && SameBinding(st, st')
  {
    hide CanonicalKey, SubsOk, TakeUsage, TakeAction;
    if st.pc.Reporting? && st.pc.usages != [] {
      TakeUsageOk(l, st);
    } else if st.pc.Acting? && st.pc.actions != [] {
      TakeActionOk(l, st);
    } else {
      var (st', _) := Local(l, st, c, last).value;
      assert st'.subs == st.subs;
      SubsOkDependsOnSubs(l, st, st');
    }
  }

  lemma SubsOkDependsOnSubs(l: Limits, st: Stream, st': Stream)
    requires st'.subs == st.subs
    ensures SubsOk(l, st') <==> SubsOk(l, st)
  {}

  /** Within one domain, scoped keys follow bucket keys. */
  lemma HeldFollowsKeys(st: Stream, st': Stream, b: BucketKey)
    requires st'.domain == st.domain
    ensures HeldKeys(st') == HeldKeys(st) ==> Held(st') == Held(st)
    ensures HeldKeys(st') == HeldKeys(st) + {b} ==> Held(st') == Held(st) + {Scoped(st, b)}
    ensures HeldKeys(st') == HeldKeys(st) - {b} ==> Held(st') == Held(st) - {Scoped(st, b)}
    ensures b in HeldKeys(st) <==> Scoped(st, b) in Held(st)
  {
    hide HeldKeys, DomainScopedKey;
    forall x, y | Scoped(st, x) == Scoped(st, y) ensures x == y {
      ScopeInjectiveInKey(st.domain, x, y);
    }
    assert forall x :: Scoped(st, x) == Scoped(st', x);
    assert forall x :: x in HeldKeys(st) ==> Scoped(st, x) in Held(st);
    assert forall x :: x in HeldKeys(st') ==> Scoped(st', x) in Held(st');
  }

  // The effect of every move is mirrored in what its stream holds.

  /** The stream-local sections change nothing that is counted, gauged or awaited. */
  ghost predicate HoldsSame(st: Stream, st': Stream) {
    && st'.domain == st.domain && st'.metric == st.metric && Waiting(st') == Waiting(st)
    && HeldKeys(st') == HeldKeys(st) && Gauged(st') == Gauged(st) && InServer(st) && InServer(st')
  }

  lemma TakeUsageHolds(l: Limits, st: Stream)
    requires st.pc.Reporting? && st.pc.usages != []
    ensures HoldsSame(st, TakeUsage(l, st))
  {
    hide KeyOf, ValidBucket;
    var st' := TakeUsage(l, st);
    if st'.pc.Counting? {
      assert st'.subs.Keys - {st'.pc.key} == st.subs.Keys;
    } else {
      assert st'.subs == st.subs;
    }
  }

  lemma TakeActionHolds(st: Stream)
    requires st.pc.Acting? && st.pc.actions != []
    ensures HoldsSame(st, TakeAction(st))
  {
    hide CanonicalKey;
  }

  lemma LocalCounts(l: Limits, st: Stream, c: Choice, last: bool)
    requires StreamOk(l, st) && Local(l, st, c, last).Some?
    ensures var (st', e) := Local(l, st, c, last).value;
            CountAccounted(st, e, st')
  {
    hide TakeUsage, TakeAction, CanonicalKey, SubsOk, DomainScopedKey, Held;
    if st.pc.Reporting? && st.pc.usages != [] {
      TakeUsageHolds(l, st);
    } else if st.pc.Acting? && st.pc.actions != [] {
      TakeActionHolds(st);
    }
    var (st', e) := Local(l, st, c, last).value;
    var b := if e.Inc? || e.Dec? || e.Record? then st.pc.key else "";
    if st.bound {
      HeldFollowsKeys(st, st', b);
      assert e.Inc? ==> b !in HeldKeys(st) && HeldKeys(st') == HeldKeys(st) + {b};
      assert e.Dec? ==> b in HeldKeys(st) && HeldKeys(st') == HeldKeys(st) - {b};
      assert e.Record? ==> b in HeldKeys(st);
      assert !e.Inc? && !e.Dec? ==> HeldKeys(st') == HeldKeys(st);
    } else {
      NothingHeld(st);
      NothingHeld(st');
    }
  }

  lemma LocalGauges(l: Limits, st: Stream, c: Choice, last: bool)
    requires StreamOk(l, st) && Local(l, st, c, last).Some?
    ensures var (st', e) := Local(l, st, c, last).value;
            GaugeAccounted(st, e, st')
  {
    hide TakeUsage, TakeAction, CanonicalKey, SubsOk;
    var (st', e) := Local(l, st, c, last).value;
    if st.pc.Reporting? && st.pc.usages != [] {
      TakeUsageHolds(l, st);
    } else if st.pc.Acting? && st.pc.actions != [] {
      TakeActionHolds(st);
    } else if e.GaugeUp? {
      assert st.pc.key !in Gauged(st) && Gauged(st') == Gauged(st) + {st.pc.key};
    } else if e.GaugeDown? {
      var b := if c.Visit? then c.key else st.pc.key;
      assert b !in Gauged(st') && Gauged(st) == Gauged(st') + {b};
    } else {
      assert Gauged(st') == Gauged(st);
    }
  }

  lemma LocalRemoves(l: Limits, st: Stream, c: Choice, last: bool)
    requires StreamOk(l, st) && Local(l, st, c, last).Some?
    ensures var (st', e) := Local(l, st, c, last).value;
            RemovalAccounted(st, e, st', last) && MembershipAccounted(st, e, st')
  {
    hide TakeUsage, TakeAction, CanonicalKey, SubsOk, DomainScopedKey;
    if st.pc.Reporting? && st.pc.usages != [] {
      TakeUsageHolds(l, st);
    } else if st.pc.Acting? && st.pc.actions != [] {
      TakeActionHolds(st);
    }
  }

  lemma NothingHeld(st: Stream)
    requires HeldKeys(st) == {}
    ensures Held(st) == {}
  {}
}
