/**
  The server object (internal/server/server.go). Its methods update their fields in place, section by
  section, and every call is proved to be a run of `Protocol` made by its own stream alone.
*/
module Server {
  import opened Keys
  import opened Memory
  import opened Api
  import opened Protocol
  import opened Invariants
  import opened Serial
  import opened Messages

  /** Per-stream state; its methods are the sections guarded by the stream's own lock. */
  class StreamState {
    const id: Sid
    var domain: string
    var metricDomain: Metric
    var domainBound: bool
    var subscriptions: map<BucketKey, BucketId>
    ghost var pc: Pc

    constructor (id: Sid)
      ensures this.id == id && Value() == OPENED
    {
      this.id := id;
      domain, metricDomain, domainBound, subscriptions := "", "", false, map[];
      pc := Idle;
    }

    ghost function Value(): Stream
      reads this
    {
      Stream(domain, metricDomain, domainBound, subscriptions, pc)
    }

    /** Domain binding and message checks; `metric` is the classifier's answer if asked. */
    method Bind(l: Limits, req: Request, metric: Metric) returns (ok: bool)
      requires pc.Idle?
      modifies this
      ensures Value() == Receive(l, old(Value()), req, metric)
      ensures pc == if !ok then Closing else if req.usages == [] then Idle else Reporting(req.usages, [])
    {
      pc := Closing;
      if !domainBound {
        if req.domain == "" {
          return false;
        }
        domain, metricDomain, domainBound := req.domain, metric, true;
      }
      if req.domain != "" && req.domain != domain {
        return false;
      }
      if req.usages == [] {
        pc := Idle;
        return true;
      }
      if l.maxReportsPerMessage > 0 && |req.usages| > l.maxReportsPerMessage {
        return false;
      }
      pc := Reporting(req.usages, []);
      return true;
    }

    /** Validate one usage report and track its subscription. */
    method Track(l: Limits, u: UsageReport) returns (ok: bool, skip: bool, isNew: bool, key: BucketKey)
      requires pc.Reporting? && pc.usages != [] && u == pc.usages[0]
      modifies this
      ensures Value() == TakeUsage(l, old(Value())) && domain == old(domain)
      ensures var us, rs := old(pc.usages), old(pc.reports);
              pc == if !ok then Closing
                    else if skip then Reporting(us[1..], rs)
                    else if isNew then Counting(key, us, rs) else Recording(key, us, rs)
      ensures ok && !skip ==> key == CanonicalKey(u.id)
      ensures ok ==> (skip <==> !HasBucket(u))
    {
      hide KeyOf, ValidBucket;
      ok, skip, isNew, key := true, false, false, "";
      if u.id.None? || |u.id.value| == 0 {
        pc := Reporting(pc.usages[1..], pc.reports);
        return true, true, false, "";
      }
      var valid := CheckBucket(l, u.id.value);
      if !valid {
        pc := Closing;
        return false, false, false, "";
      }
      key := BucketKeyFromProto(u.id);
      if key !in subscriptions {
        if l.maxBucketsPerStream > 0 && |subscriptions| >= l.maxBucketsPerStream {
          pc := Closing;
          return false, false, false, "";
        }
        subscriptions := subscriptions[key := u.id.value];
        isNew := true;
        pc := Counting(key, pc.usages, pc.reports);
      } else {
        pc := Recording(key, pc.usages, pc.reports);
      }
    }

    /** Drop the subscription of an abandoned bucket, if there is one. */
    method Drop(a: BucketAction) returns (dropped: bool, key: BucketKey)
      requires pc.Acting? && pc.actions != [] && a == pc.actions[0]
      modifies this
      ensures Value() == TakeAction(old(Value())) && domain == old(domain)
      ensures var rest, reply := old(pc.actions)[1..], old(pc.reply);
              pc == if dropped then Uncounting(key, rest, reply) else Acting(rest, reply)
    {
      dropped, key := false, "";
      ghost var rest, reply := pc.actions[1..], pc.reply;
      if a.Abandon? {
        key := BucketKeyFromProto(a.id);
        if key in subscriptions {
          subscriptions := subscriptions - {key};
          pc := Uncounting(key, rest, reply);
          return true, key;
        }
      }
      pc := Acting(rest, reply);
    }
  }

  /** The size checks on a bucket id, entry by entry. */
  method CheckBucket(l: Limits, bucket: BucketId) returns (ok: bool)
    ensures ok <==> ValidBucket(l, bucket)
    ensures ok <==>
              && (l.maxBucketEntries > 0 ==> |bucket| <= l.maxBucketEntries)
              && forall k :: k in bucket ==>
                   && k != "" && bucket[k] != ""
                   && (l.maxBucketKeyLen > 0 ==> |k| <= l.maxBucketKeyLen)
                   && (l.maxBucketValueLen > 0 ==> |bucket[k]| <= l.maxBucketValueLen)
  {
    if l.maxBucketEntries > 0 && |bucket| > l.maxBucketEntries {
      return false;
    }
    var todo := bucket.Keys;
    while todo != {}
      invariant todo <= bucket.Keys
      invariant forall k :: k in bucket && k !in todo ==>
        k != "" && bucket[k] != "" && WithinLimit(|k|, l.maxBucketKeyLen)
        && WithinLimit(|bucket[k]|, l.maxBucketValueLen)
      decreases todo
    {
      var k :| k in todo;
      if k == "" || bucket[k] == ""
         || (l.maxBucketKeyLen > 0 && |k| > l.maxBucketKeyLen)
         || (l.maxBucketValueLen > 0 && |bucket[k]| > l.maxBucketValueLen) {
        return false;
      }
      todo := todo - {k};
    }
    return true;
  }

  ghost function AfterUncount(pc: Pc, last: bool): Pc
    requires pc.Uncounting? || pc.DrainUncounting?
  {
    match pc
    case Uncounting(key, actions, reply) =>
      if last then Removing(key, actions, reply) else Ungauging(key, actions, reply)
    case DrainUncounting(key, rest) =>
      if last then DrainRemoving(key, rest) else Draining(rest)
  }

  lemma UncountIsLocal(l: Limits, st: Stream, last: bool)
    requires st.pc.Uncounting? || st.pc.DrainUncounting?
    ensures Local(l, st, Go, last) == Some((st.(pc := AfterUncount(st.pc, last)), Dec(Scoped(st, st.pc.key))))
  {}

  ghost predicate CanLower(pc: Pc, c: Choice) {
    (pc.Ungauging? && c.Go?) || (pc.Draining? && c.Visit? && c.key in pc.rest)
  }

  ghost function AfterLower(pc: Pc, c: Choice): Pc
    requires CanLower(pc, c)
  {
    if pc.Ungauging? then Acting(pc.actions, pc.reply) else DrainUncounting(c.key, pc.rest - {c.key})
  }

  lemma LowerIsLocal(l: Limits, st: Stream, c: Choice, last: bool)
    requires CanLower(st.pc, c)
    ensures Local(l, st, c, last) == Some((st.(pc := AfterLower(st.pc, c)), GaugeDown(st.metric)))
  {}

  ghost function AfterClosing(st: Stream): Pc {
    if st.bound then Draining(st.subs.Keys) else Done
  }

  lemma LeaveIsLocal(l: Limits, st: Stream, last: bool)
    requires st.pc.Closing?
    ensures Local(l, st, Go, last) == Some((st.(pc := AfterClosing(st)), Effect.Leave))
  {}

  /** A message as the receive loop meets it, with the environment's answers while it is handled. */
  datatype Inbound = Inbound(req: Request, metric: Metric, engine: Engine, sent: bool)

  class RLQSServer {
    const limits: Limits
    const store: MemoryStorage
    var streams: set<StreamState>
    var bucketRefs: map<BucketKey, int>
    var activeBuckets: map<Metric, int>

    ghost var known: map<Sid, StreamState>  // every stream ever opened
    ghost var live: set<Sid>                // those in `streams`
    ghost var log: seq<Effect>
    ghost var trace: seq<Move>              // the moves so far

    ghost predicate Linked()
      reads this`known, this`streams, this`live
    {
      && (forall sid :: sid in known ==> known[sid].id == sid)
      && (forall ss :: ss in streams ==> ss.id in live && ss.id in known && known[ss.id] == ss)
      && (forall sid :: sid in live ==> sid in known && known[sid] in streams)
    }

    /** The state is the one the moves so far lead to. */
    ghost predicate Valid()
      reads this, store, known.Values
    {
      Linked() && Run(limits, trace) == Some(View())
    }

    ghost function View(): State
      reads this, store, known.Values
    {
      State((map sid | sid in known :: known[sid].Value()),
            Shared(live, bucketRefs, store.buckets, activeBuckets), log)
    }

    ghost predicate Knows(ss: StreamState)
      reads this, store, known.Values
    {
      Valid() && ss.id in known && known[ss.id] == ss
    }

    constructor (limits: Limits)
      ensures Valid() && trace == [] && this.limits == limits && fresh(store)
    {
      this.limits := limits;
      store := new MemoryStorage();
      streams, bucketRefs, activeBuckets := {}, map[], map[];
      known, live, log, trace := map[], {}, [], [];
      new;
      assert View() == INITIAL;
    }

    /**
      Close a move. If since `before` only `ss` and shared state changed, as `Apply` says, and `Local`
      takes the stream to its current fields and `pc'`, then that was a move of `ss`.
    */
    ghost method Commit(before: State, ss: StreamState, c: Choice, e: Effect, pc': Pc)
      requires Run(limits, trace) == Some(before) && log == before.log
      requires Linked() && ss.id in known && known[ss.id] == ss && known.Keys == before.streams.Keys
      requires forall sid :: sid in known && sid != ss.id ==> known[sid].Value() == before.streams[sid]
      requires View().shared == Apply(before.shared, ss.id, e)
      requires var was := before.streams[ss.id];
               Local(limits, was, c, IsLast(before.shared, was)) == Some((ss.Value().(pc := pc'), e))
      modifies this`log, this`trace, ss`pc
      ensures Knows(ss) && ss.pc == pc' && trace == old(trace) + [Act(ss.id, c)]
    {
      hide Local, Apply, RunFrom, Next;
      ghost var t0 := trace;
      ss.pc := pc';
      log := log + [e];
      trace := trace + [Act(ss.id, c)];
      IsMove(t0, before, ss, c, e);
    }

    lemma IsMove(t0: seq<Move>, before: State, ss: StreamState, c: Choice, e: Effect)
      requires Run(limits, t0) == Some(before) && trace == t0 + [Act(ss.id, c)] && log == before.log + [e]
      requires Linked() && ss.id in known && known[ss.id] == ss && known.Keys == before.streams.Keys
      requires forall sid :: sid in known && sid != ss.id ==> known[sid].Value() == before.streams[sid]
      requires View().shared == Apply(before.shared, ss.id, e)
      requires var was := before.streams[ss.id];
               Local(limits, was, c, IsLast(before.shared, was)) == Some((ss.Value(), e))
      ensures Knows(ss)
    {
      hide Local, Apply;
      assert View().streams == before.streams[ss.id := ss.Value()];
      assert trace[..|trace| - 1] == t0;
    }

    // -------------------------------------------------------------------------------------------
    // Moves that touch shared state
    // -------------------------------------------------------------------------------------------

    method OpenStream(id: Sid) returns (ss: StreamState)
      requires Valid() && id !in known
      modifies this
      ensures fresh(ss) && ss.id == id && Knows(ss) && known == old(known)[id := ss] && ss.Value() == OPENED
      ensures trace == old(trace) + [Open(id)]
    {
      hide RunFrom, Next, KeyOf, CanonicalKey, DomainScopedKey, TakeUsage, TakeAction, Receive, Answer;
      ghost var before, t0 := View(), trace;
      ss := new StreamState(id);
      streams := streams + {ss};
      known, live, log := known[id := ss], live + {id}, log + [Join];
      trace := trace + [Open(id)];
      IsOpening(t0, before, ss);
    }

    lemma IsOpening(t0: seq<Move>, before: State, ss: StreamState)
      requires Run(limits, t0) == Some(before) && trace == t0 + [Open(ss.id)]
      requires Linked() && ss.id in known && known[ss.id] == ss
      requires ss.id !in before.streams && known.Keys == before.streams.Keys + {ss.id}
      requires forall sid :: sid in known && sid != ss.id ==> known[sid].Value() == before.streams[sid]
      requires ss.Value() == OPENED
      requires View().shared == Apply(before.shared, ss.id, Join) && log == before.log + [Join]
      ensures Knows(ss)
    {
      assert trace[..|trace| - 1] == t0;
      assert View().streams == before.streams[ss.id := OPENED];
    }

    method CountBucket(ss: StreamState, key: BucketKey)
      requires Knows(ss) && ss.pc.Counting? && ss.pc.key == key
      modifies this`bucketRefs, this`log, this`trace, ss`pc
      ensures Knows(ss) && trace == old(trace) + [Act(ss.id, Go)]
      ensures ss.pc == Gauging(key, old(ss.pc.usages), old(ss.pc.reports))
    {
      hide RunFrom, Next, KeyOf, CanonicalKey, DomainScopedKey, TakeUsage, TakeAction, Receive, Answer;
      ghost var before := View();
      var scopedKey := DomainScopedKey(ss.domain, key);
      bucketRefs := bucketRefs[scopedKey := At(bucketRefs, scopedKey) + 1];
      Commit(before, ss, Go, Inc(scopedKey), Gauging(key, ss.pc.usages, ss.pc.reports));
    }

    method RaiseGauge(ss: StreamState)
      requires Knows(ss) && ss.pc.Gauging?
      modifies this`activeBuckets, this`log, this`trace, ss`pc
      ensures Knows(ss) && trace == old(trace) + [Act(ss.id, Go)]
      ensures ss.pc == Recording(old(ss.pc.key), old(ss.pc.usages), old(ss.pc.reports))
    {
      hide RunFrom, Next, KeyOf, CanonicalKey, DomainScopedKey, TakeUsage, TakeAction, Receive, Answer;
      ghost var before := View();
      var m := ss.metricDomain;
      activeBuckets := activeBuckets[m := At(activeBuckets, m) + 1];
      Commit(before, ss, Go, GaugeUp(m), Recording(ss.pc.key, ss.pc.usages, ss.pc.reports));
    }

    method RecordReport(ss: StreamState, report: UsageReport)
      requires Knows(ss) && ss.pc.Recording? && ss.pc.usages != [] && ss.pc.usages[0] == report
      requires ss.pc.key == CanonicalKey(report.id)
      modifies store, this`log, this`trace, ss`pc
      ensures Knows(ss) && trace == old(trace) + [Act(ss.id, Go)]
      ensures ss.pc == Reporting(old(ss.pc.usages)[1..], old(ss.pc.reports) + [report])
    {
      hide RunFrom, Next, KeyOf, CanonicalKey, DomainScopedKey, TakeUsage, TakeAction, Receive, Answer;
      ghost var before := View();
      store.RecordUsage(ss.domain, report);
      Commit(before, ss, Go, Record(DomainScopedKey(ss.domain, ss.pc.key), report.usage),
             Reporting(ss.pc.usages[1..], ss.pc.reports + [report]));
    }

    /** Drop one reference; `last` if it was the last one. */
    method UncountBucket(ss: StreamState, key: BucketKey) returns (last: bool)
      requires Knows(ss) && (ss.pc.Uncounting? || ss.pc.DrainUncounting?) && ss.pc.key == key
      modifies this`bucketRefs, this`log, this`trace, ss`pc
      ensures Knows(ss) && trace == old(trace) + [Act(ss.id, Go)]
      ensures ss.pc == AfterUncount(old(ss.pc), last)
    {
      hide RunFrom, Next, Local, DomainScopedKey;
      ghost var before := View();
      UncountIsLocal(limits, ss.Value(), IsLast(before.shared, ss.Value()));
      var scopedKey := DomainScopedKey(ss.domain, key);
      var n := At(bucketRefs, scopedKey) - 1;
      last := n <= 0;
      bucketRefs := if last then bucketRefs - {scopedKey} else bucketRefs[scopedKey := n];
      Commit(before, ss, Go, Dec(scopedKey), AfterUncount(ss.pc, last));
    }

    method RemoveUnreferenced(ss: StreamState, key: BucketKey)
      requires Knows(ss) && (ss.pc.Removing? || ss.pc.DrainRemoving?) && ss.pc.key == key
      modifies store, this`log, this`trace, ss`pc
      ensures Knows(ss) && trace == old(trace) + [Act(ss.id, Go)]
      ensures var was := old(ss.pc);
              ss.pc == if was.Removing? then Ungauging(key, was.actions, was.reply) else Draining(was.rest)
    {
      hide RunFrom, Next, KeyOf, CanonicalKey, DomainScopedKey, TakeUsage, TakeAction, Receive, Answer;
      ghost var before := View();
      store.RemoveBucket(ss.domain, key);
      Commit(before, ss, Go, Effect.Remove(DomainScopedKey(ss.domain, key)),
             if ss.pc.Removing? then Ungauging(key, ss.pc.actions, ss.pc.reply) else Draining(ss.pc.rest));
    }

    /** Take one bucket off the gauge: after an abandon, or before a bucket is released on disconnect. */
    method LowerGauge(ss: StreamState, ghost c: Choice)
      requires Knows(ss)
      requires CanLower(ss.pc, c)
      modifies this`activeBuckets, this`log, this`trace, ss`pc
      ensures Knows(ss) && trace == old(trace) + [Act(ss.id, c)]
      ensures ss.pc == AfterLower(old(ss.pc), c)
    {
      hide RunFrom, Next, Local, DomainScopedKey;
      ghost var before := View();
      LowerIsLocal(limits, ss.Value(), c, IsLast(before.shared, ss.Value()));
      var m := ss.metricDomain;
      activeBuckets := activeBuckets[m := At(activeBuckets, m) - 1];
      Commit(before, ss, c, GaugeDown(m), AfterLower(ss.pc, c));
    }

    method Leave(ss: StreamState)
      requires Knows(ss) && ss.pc.Closing?
      modifies this`streams, this`live, this`log, this`trace, ss`pc
      ensures Knows(ss) && trace == old(trace) + [Act(ss.id, Go)]
      ensures ss.pc == AfterClosing(ss.Value())
    {
      hide RunFrom, Next, Local;
      ghost var before := View();
      LeaveIsLocal(limits, ss.Value(), IsLast(before.shared, ss.Value()));
      streams, live := streams - {ss}, live - {ss.id};
      Commit(before, ss, Go, Effect.Leave, AfterClosing(ss.Value()));
    }

    // -------------------------------------------------------------------------------------------
    // Moves of the stream itself
    // -------------------------------------------------------------------------------------------

    method BindDomain(ss: StreamState, req: Request, metric: Metric) returns (ok: bool)
      requires Knows(ss) && ss.pc.Idle?
      modifies this`log, this`trace, ss
      ensures Knows(ss) && trace == old(trace) + [Act(ss.id, Recv(req, metric))]
      ensures ss.pc == if !ok then Closing else if req.usages == [] then Idle else Reporting(req.usages, [])
    {
      hide RunFrom, Next, KeyOf, CanonicalKey, DomainScopedKey, TakeUsage, TakeAction, Receive, Answer;
      ghost var before := View();
      ok := ss.Bind(limits, req, metric);
      Commit(before, ss, Recv(req, metric), Nothing, ss.pc);
    }

    method TrackUsage(ss: StreamState, u: UsageReport) returns (ok: bool, skip: bool, isNew: bool, key: BucketKey)
      requires Knows(ss) && ss.pc.Reporting? && ss.pc.usages != [] && u == ss.pc.usages[0]
      modifies this`log, this`trace, ss
      ensures Knows(ss) && trace == old(trace) + [Act(ss.id, Go)]
      ensures var us, rs := old(ss.pc.usages), old(ss.pc.reports);
              ss.pc == if !ok then Closing
                       else if skip then Reporting(us[1..], rs)
                       else if isNew then Counting(key, us, rs) else Recording(key, us, rs)
      ensures ok && !skip ==> key == CanonicalKey(u.id)
      ensures ok ==> (skip <==> !HasBucket(u))
      ensures ss.domain == old(ss.domain)
    {
      hide RunFrom, Next, KeyOf, CanonicalKey, DomainScopedKey, TakeUsage, TakeAction, Receive, Answer;
      ghost var before := View();
      ok, skip, isNew, key := ss.Track(limits, u);
      Commit(before, ss, Go, Nothing, ss.pc);
    }

    method DropAbandoned(ss: StreamState, a: BucketAction) returns (dropped: bool, key: BucketKey)
      requires Knows(ss) && ss.pc.Acting? && ss.pc.actions != [] && a == ss.pc.actions[0]
      modifies this`log, this`trace, ss
      ensures Knows(ss) && trace == old(trace) + [Act(ss.id, Go)]
      ensures var rest, reply := old(ss.pc.actions)[1..], old(ss.pc.reply);
              ss.pc == if dropped then Uncounting(key, rest, reply) else Acting(rest, reply)
      ensures ss.domain == old(ss.domain)
    {
      hide RunFrom, Next, KeyOf, CanonicalKey, DomainScopedKey, TakeUsage, TakeAction, Receive, Answer;
      ghost var before := View();
      dropped, key := ss.Drop(a);
      Commit(before, ss, Go, Nothing, ss.pc);
    }

    method ConsultEngine(ss: StreamState, engine: Engine, reports: seq<UsageReport>)
      returns (actions: Option<seq<BucketAction>>)
      requires Knows(ss) && ss.pc == Reporting([], reports)
      modifies this`log, this`trace, ss`pc
      ensures Knows(ss) && trace == old(trace) + [Act(ss.id, Consult(engine))]
      ensures ss.pc == if actions.None? then Closing
                       else if actions.value == [] then Idle else Acting(actions.value, actions.value)
      ensures actions == engine(ss.domain, reports)
    {
      hide RunFrom, Next, KeyOf, CanonicalKey, DomainScopedKey, TakeUsage, TakeAction, Receive;
      ghost var before := View();
      actions := engine(ss.domain, reports);
      Commit(before, ss, Consult(engine), Nothing,
             if actions.None? then Closing
             else if actions.value == [] then Idle else Acting(actions.value, actions.value));
    }

    method SendReply(ss: StreamState, reply: seq<BucketAction>, sent: bool)
      requires Knows(ss) && ss.pc == Acting([], reply)
      modifies this`log, this`trace, ss`pc
      ensures Knows(ss) && trace == old(trace) + [Act(ss.id, Send(sent))]
      ensures ss.pc == if sent then Idle else Closing
    {
      hide RunFrom, Next, KeyOf, CanonicalKey, DomainScopedKey, TakeUsage, TakeAction, Receive, Answer;
      ghost var before := View();
      Commit(before, ss, Send(sent), Reply(reply), if sent then Idle else Closing);
    }

    /** Receive failed, or the last subscription was released. */
    ghost method Finish(ss: StreamState, c: Choice)
      requires Knows(ss) && ((ss.pc.Idle? && c.RecvFailed?) || (ss.pc == Draining({}) && c.Go?))
      modifies this`log, this`trace, ss`pc
      ensures Knows(ss) && trace == old(trace) + [Act(ss.id, c)]
      ensures ss.pc == if old(ss.pc).Idle? then Closing else Done
    {
      hide RunFrom, Next, KeyOf, CanonicalKey, DomainScopedKey, TakeUsage, TakeAction, Receive, Answer;
      ghost var before := View();
      Commit(before, ss, c, Nothing, if ss.pc.Idle? then Closing else Done);
    }

    // -------------------------------------------------------------------------------------------
    // Whole messages and cleanups
    // -------------------------------------------------------------------------------------------

    /** One usage report: subscribe if new, then record. */
    method ReportUsage(ss: StreamState, u: UsageReport) returns (ok: bool, kept: bool)
      requires Knows(ss) && ss.pc.Reporting? && ss.pc.usages != [] && u == ss.pc.usages[0]
      modifies this, ss, store
      ensures known == old(known) && Knows(ss) && Continues(old(trace), trace, ss.id)
      ensures var us, rs := old(ss.pc.usages), old(ss.pc.reports);
              ss.pc == if !ok then Closing else Reporting(us[1..], if kept then rs + [u] else rs)
      ensures ok ==> (kept <==> HasBucket(u))
      ensures ss.domain == old(ss.domain)
    {
      hide Valid, View, CanonicalKey, HasBucket;
      var skip, isNew, key;
      ok, skip, isNew, key := TrackUsage(ss, u);
      kept := ok && !skip;
      if kept {
        Admit(ss, u, isNew, key);
      }
    }

    /** Count the subscription if it is new, then record the report. */
    method Admit(ss: StreamState, u: UsageReport, isNew: bool, key: BucketKey)
      requires Knows(ss) && (if isNew then ss.pc.Counting? else ss.pc.Recording?) && ss.pc.key == key
      requires ss.pc.usages != [] && u == ss.pc.usages[0] && key == CanonicalKey(u.id)
      modifies this, ss`pc, store
      ensures known == old(known) && Knows(ss) && Continues(old(trace), trace, ss.id)
      ensures ss.pc == Reporting(old(ss.pc.usages)[1..], old(ss.pc.reports) + [u])
    {
      hide Valid, View, CanonicalKey;
      if isNew {
        Subscribe(ss, key);
      }
      RecordReport(ss, u);
    }

    method Subscribe(ss: StreamState, key: BucketKey)
      requires Knows(ss) && ss.pc.Counting? && ss.pc.key == key
      modifies this, ss`pc
      ensures known == old(known) && Knows(ss) && Continues(old(trace), trace, ss.id)
      ensures ss.pc == Recording(key, old(ss.pc.usages), old(ss.pc.reports))
    {
      hide Valid, View;
      CountBucket(ss, key);
      RaiseGauge(ss);
    }

    /** One action: an abandon releases its bucket. */
    method ApplyAction(ss: StreamState, a: BucketAction)
      requires Knows(ss) && ss.pc.Acting? && ss.pc.actions != [] && a == ss.pc.actions[0]
      modifies this, ss, store
      ensures known == old(known) && Knows(ss) && Continues(old(trace), trace, ss.id)
      ensures ss.pc == Acting(old(ss.pc.actions)[1..], old(ss.pc.reply))
      ensures ss.domain == old(ss.domain)
    {
      hide Valid, View;
      var dropped, key := DropAbandoned(ss, a);
      if dropped {
        var last := UncountBucket(ss, key);
        if last {
          RemoveUnreferenced(ss, key);
        }
        LowerGauge(ss, Go);
      }
    }

    /** Apply the engine's actions, then send them. */
    method Conclude(ss: StreamState, actions: seq<BucketAction>, sent: bool)
      requires Knows(ss) && ss.pc == Acting(actions, actions)
      modifies this, ss, store
      ensures known == old(known) && Knows(ss) && ss.domain == old(ss.domain)
      ensures old(trace) <= trace
      ensures forall i :: |old(trace)| <= i < |trace| ==>
        trace[i] == Act(ss.id, Go) || trace[i] == Act(ss.id, Send(sent))
      ensures ss.pc == if sent then Idle else Closing
    {
      hide Valid, View;
      for j := 0 to |actions|
        invariant known == old(known) && Knows(ss) && ss.domain == old(ss.domain)
        invariant Continues(old(trace), trace, ss.id)
        invariant ss.pc == Acting(actions[j..], actions)
      {
        ApplyAction(ss, actions[j]);
      }
      SendReply(ss, actions, sent);
    }

    /**
      One inbound message. The call is a run of this stream alone that begins with receiving `req` and
      ends between messages, or closing if the message was rejected or the reply could not be sent.
    */
    method RunMessage(ss: StreamState, req: Request, metric: Metric, engine: Engine, sent: bool)
      returns (ok: bool, reply: seq<BucketAction>)
      requires Knows(ss) && ss.pc.Idle?
      modifies this, ss, store
      ensures known == old(known) && Knows(ss)
      ensures MessageMoves(old(trace), trace, ss.id, req, metric, engine, sent)
      ensures ss.pc == if ok then Idle else Closing
      ensures ok ==> Answered(req, engine, ss.domain, reply)
    {
      hide Valid, View;
      reply := [];
      ok := BindDomain(ss, req, metric);
      if !ok || req.usages == [] {
        return;
      }

      var reports: seq<UsageReport> := [];
      for i := 0 to |req.usages|
        invariant known == old(known) && Knows(ss)
        invariant MessageMoves(old(trace), trace, ss.id, req, metric, engine, sent)
        invariant ss.pc == Reporting(req.usages[i..], reports) && reports == WithBucket(req.usages[..i])
      {
        assert req.usages[..i + 1][..i] == req.usages[..i];
        var kept;
        ok, kept := ReportUsage(ss, req.usages[i]);
        if !ok {
          return;
        }
        if kept {
          reports := reports + [req.usages[i]];
        }
      }

      assert req.usages[..|req.usages|] == req.usages;
      var answer := ConsultEngine(ss, engine, reports);
      if answer.None? {
        return false, [];
      }
      var actions := answer.value;
      if actions == [] {
        return true, [];
      }
      Conclude(ss, actions, sent);
      ok, reply := sent, actions;
    }

    /** Stream exit: leave the server, then release every subscription, in no fixed order. */
    method RunCleanup(ss: StreamState)
      requires Knows(ss) && ss.pc.Closing?
      modifies this, ss, store
      ensures known == old(known) && Knows(ss)
      ensures OwnMoves(old(trace), trace, ss.id) && ss.pc.Done?
    {
      hide Valid, View;
      Leave(ss);
      if !ss.domainBound {
        return;
      }
      var todo := ss.subscriptions.Keys;
      while todo != {}
        invariant known == old(known) && Knows(ss) && OwnMoves(old(trace), trace, ss.id)
        invariant ss.pc == Draining(todo)
        decreases todo
      {
        var key :| key in todo;
        todo := todo - {key};
        LowerGauge(ss, Visit(key));
        var last := UncountBucket(ss, key);
        if last {
          RemoveUnreferenced(ss, key);
        }
      }
      Finish(ss, Go);
    }

    // -------------------------------------------------------------------------------------------
    // Message-level interleaving
    // -------------------------------------------------------------------------------------------

    /** No stream is inside a message or a cleanup, and none ever was while another moved. */
    ghost predicate Between()
      reads this, store, known.Values
    {
      && Valid() && SerialRun(limits, INITIAL, trace)
      && forall sid :: sid in known ==> Quiet(known[sid].Value())
    }

    /** A call that made only moves of its own stream keeps message-level interleaving. */
    lemma StillBetween(t0: seq<Move>, ss: StreamState)
      requires Knows(ss) && OwnMoves(t0, trace, ss.id) && Quiet(ss.Value())
      requires Run(limits, t0).Some? && SerialRun(limits, INITIAL, t0)
      requires var s0 := Run(limits, t0).value;
               ss.id in s0.streams && forall sid :: sid in s0.streams ==> Quiet(s0.streams[sid])
      ensures Between() && Inv(limits, View()) && Settled(View())
    {
      hide RunFrom, Inv, Settled, Quiet;
      OwnMovesAreSerial(limits, t0, trace, ss.id);
      var s := View();
      forall sid | sid in s.streams ensures Quiet(s.streams[sid]) {
        assert sid == ss.id ==> s.streams[sid] == ss.Value();
      }
      RunKeepsInv(limits, trace);
      SerialRunIsSettled(limits, trace);
      assert forall sid :: sid in known ==> s.streams[sid] == known[sid].Value();
    }

    method HandleMessage(ss: StreamState, req: Request, metric: Metric, engine: Engine, sent: bool)
      returns (ok: bool, reply: seq<BucketAction>)
      requires Between() && Knows(ss) && ss.pc.Idle?
      modifies this, ss, store
      ensures Between() && Inv(limits, View()) && Settled(View())
      ensures known == old(known) && Knows(ss) && ss.pc == if ok then Idle else Closing
      ensures old(log) <= log
      ensures MessageLaw(limits, old(ss.Value()), req, metric, engine, sent, ss.Value(), log[|old(log)|..])
      ensures ok ==> Answered(req, engine, ss.domain, reply)
    {
      hide RunFrom, Inv, Settled, MessageLaw, MessageMoves, Answered;
      ghost var t0, s0 := trace, View();
      assert forall sid :: sid in known ==> View().streams[sid] == known[sid].Value();
      ok, reply := RunMessage(ss, req, metric, engine, sent);
      OfOneStream(t0, trace, ss.id, req, metric, engine, sent);
      StillBetween(t0, ss);
      LawfulMessage(t0, s0, ss, req, metric, engine, sent);
    }

    /** A message handled without interruption obeys the law. */
    lemma LawfulMessage(t0: seq<Move>, s0: State, ss: StreamState, req: Request, metric: Metric, engine: Engine,
                        sent: bool)
      requires Knows(ss) && Run(limits, t0) == Some(s0) && MessageMoves(t0, trace, ss.id, req, metric, engine, sent)
      requires ss.id in s0.streams && s0.streams[ss.id].pc.Idle? && (ss.pc.Idle? || ss.pc.Closing?)
      ensures s0.log <= log
      ensures MessageLaw(limits, s0.streams[ss.id], req, metric, engine, sent, ss.Value(), log[|s0.log|..])
    {
      hide RunFrom, MessageLaw, MessageMoves;
      MessageTrace(limits, t0, trace, ss.id, req, metric, engine, sent);
      assert View().streams[ss.id] == ss.Value();
    }

    method CleanupStream(ss: StreamState)
      requires Between() && Knows(ss) && ss.pc.Closing?
      modifies this, ss, store
      ensures Between() && Inv(limits, View()) && Settled(View())
      ensures known == old(known) && Knows(ss) && ss.pc.Done? && OwnMoves(old(trace), trace, ss.id)
    {
      hide RunFrom, Inv, Settled;
      ghost var t0 := trace;
      assert forall sid :: sid in known ==> View().streams[sid] == known[sid].Value();
      RunCleanup(ss);
      StillBetween(t0, ss);
    }

    /** Opening a stream also keeps message-level interleaving. */
    lemma OpenedBetween(t0: seq<Move>, ss: StreamState)
      requires Knows(ss) && trace == t0 + [Open(ss.id)] && Quiet(ss.Value())
      requires Run(limits, t0).Some? && SerialRun(limits, INITIAL, t0)
      requires var s0 := Run(limits, t0).value;
               forall sid :: sid in known && sid != ss.id ==>
                 sid in s0.streams && s0.streams[sid] == known[sid].Value() && Quiet(known[sid].Value())
      requires Run(limits, t0).value.streams.Keys <= known.Keys
      ensures Between()
    {
      assert trace[..|trace| - 1] == t0;
    }

    /**
      A whole stream, from opening to cleanup, however it ends: end of stream or a receive error after
      the last message, a rejected message, or a failed send. It leaves no reference behind.
    */
    method StreamRateLimitQuotas(id: Sid, inbox: seq<Inbound>) returns (ss: StreamState)
      requires Between() && id !in known
      modifies this, store
      ensures fresh(ss) && Between() && Inv(limits, View()) && Settled(View())
      ensures known == old(known)[id := ss] && ss.pc.Done? && ss !in streams
      ensures bucketRefs == old(bucketRefs)
    {
      hide RunFrom, Inv, Settled, SerialRun, Quiet, Linked, StreamState.Value;
      ghost var t0, s0 := trace, View();
      ss := Accept(id);
      Serve(ss, inbox);
      Released(t0, s0, ss);
    }

    method Serve(ss: StreamState, inbox: seq<Inbound>)
      requires Between() && Knows(ss) && ss.pc.Idle?
      modifies this, ss, store
      ensures Between() && Inv(limits, View()) && Settled(View())
      ensures Knows(ss) && known == old(known) && ss.pc.Done?
    {
      hide Between, Inv, Settled, View;
      ReceiveLoop(ss, inbox);
      CleanupStream(ss);
    }

    method Accept(id: Sid) returns (ss: StreamState)
      requires Between() && id !in known
      modifies this
      ensures fresh(ss) && ss.id == id && Between() && Knows(ss) && known == old(known)[id := ss] && ss.pc.Idle?
    {
      hide RunFrom, SerialRun;
      ghost var t0 := trace;
      assert forall sid :: sid in known ==> View().streams[sid] == known[sid].Value();
      ss := OpenStream(id);
      OpenedBetween(t0, ss);
    }

    /** Handle messages until one fails or receiving does. */
    method ReceiveLoop(ss: StreamState, inbox: seq<Inbound>)
      requires Between() && Knows(ss) && ss.pc.Idle?
      modifies this, ss, store
      ensures Between() && Knows(ss) && known == old(known) && ss.pc.Closing?
    {
      hide RunFrom, Inv, Settled, View;
      var ok, i := true, 0;
      while ok && i < |inbox|
        invariant i <= |inbox| && Between() && Knows(ss) && known == old(known)
        invariant ss.pc == if ok then Idle else Closing
      {
        var m := inbox[i];
        var reply;
        ok, reply := HandleMessage(ss, m.req, m.metric, m.engine, m.sent);
        i := i + 1;
      }
      if ok {
        FailReceive(ss);
      }
    }

    ghost method FailReceive(ss: StreamState)
      requires Between() && Knows(ss) && ss.pc.Idle?
      modifies this`log, this`trace, ss`pc
      ensures Between() && Knows(ss) && ss.pc.Closing?
    {
      hide RunFrom, Inv, Settled;
      var t0 := trace;
      assert forall sid :: sid in known ==> View().streams[sid] == known[sid].Value();
      Finish(ss, RecvFailed);
      StillBetween(t0, ss);
    }

    /** An ended stream is no longer in the server and holds no reference. */
    lemma Released(t0: seq<Move>, s0: State, ss: StreamState)
      requires Knows(ss) && ss.pc.Done? && Inv(limits, View())
      requires Run(limits, t0) == Some(s0) && ss.id !in s0.streams && known.Keys == s0.streams.Keys + {ss.id}
      requires forall sid :: sid in s0.streams ==> known[sid].Value() == s0.streams[sid]
      ensures ss !in streams && bucketRefs == s0.shared.refs
    {
      hide RunFrom, StreamOk, RefsOk, StoreOk, GaugeOk;
      RunKeepsInv(limits, t0);
      assert View().streams[ss.id] == ss.Value();
      DoneLeavesRefs(limits, s0, View(), ss.id);
    }

    // -------------------------------------------------------------------------------------------
    // Proactive pushes
    // -------------------------------------------------------------------------------------------

    /** Fresh assignments for every subscribed bucket of every active stream; nothing is changed. */
    method PushAssignments(engine: Engine) returns (pushed: map<StreamState, seq<BucketAction>>)
      ensures forall ss :: ss in pushed ==> ss in streams && pushed[ss] != []
      ensures forall ss :: ss in streams ==> Pushes(engine, ss.Value(), if ss in pushed then pushed[ss] else [])
    {
      pushed := map[];
      var todo := streams;
      while todo != {}
        invariant todo <= streams && forall ss :: ss in pushed ==> ss in streams - todo && pushed[ss] != []
        invariant forall ss :: ss in streams - todo ==>
          Pushes(engine, ss.Value(), if ss in pushed then pushed[ss] else [])
        decreases todo
      {
        var ss :| ss in todo;
        todo := todo - {ss};
        if ss.domainBound && |ss.subscriptions| > 0 {
          var reports := SnapshotReports(ss.subscriptions);
          var answer := engine(ss.domain, reports);
          if answer.Some? && answer.value != [] {
            pushed := pushed[ss := answer.value];
          }
        }
      }
    }
  }

  lemma DoneHoldsNothing(s: State, t: State, sid: Sid, k: BucketKey)
    requires sid !in s.streams && sid in t.streams && t.streams[sid].pc.Done?
    requires t.streams.Keys == s.streams.Keys + {sid}
    requires forall id :: id in s.streams ==> t.streams[id] == s.streams[id]
    ensures Holders(HeldBy(t), k) == Holders(HeldBy(s), k)
  {
    hide Held;
    NothingHeld(t.streams[sid]);
  }

  /** If the streams differ only by one that has ended, the reference counts do not differ at all. */
  lemma DoneLeavesRefs(l: Limits, s: State, t: State, sid: Sid)
    requires Inv(l, s) && Inv(l, t) && sid !in s.streams && sid in t.streams && t.streams[sid].pc.Done?
    requires t.streams.Keys == s.streams.Keys + {sid}
    requires forall id :: id in s.streams ==> t.streams[id] == s.streams[id]
    ensures t.shared.refs == s.shared.refs
  {
    hide Held, StreamOk, StoreOk, GaugeOk, Holders, HeldBy;
    forall k ensures At(t.shared.refs, k) == At(s.shared.refs, k) {
      DoneHoldsNothing(s, t, sid, k);
      assert At(t.shared.refs, k) == |Holders(HeldBy(t), k)|;
      assert At(s.shared.refs, k) == |Holders(HeldBy(s), k)|;
    }
    assert forall k :: k in t.shared.refs <==> At(t.shared.refs, k) > 0;
    assert forall k :: k in s.shared.refs <==> At(s.shared.refs, k) > 0;
    assert forall k :: k in t.shared.refs ==> t.shared.refs[k] == At(t.shared.refs, k);
  }

  /** The reports list every subscription once, with no usage. */
  ghost predicate IsSnapshot(reports: seq<UsageReport>, keys: seq<BucketKey>, subs: map<BucketKey, BucketId>) {
    && NoDuplicates(keys) && Elements(keys) == subs.Keys && |reports| == |keys|
    && forall i :: 0 <= i < |keys| ==>
         keys[i] in subs && reports[i] == UsageReport(Some(subs[keys[i]]), UsageState(0, 0))
  }

  /** What a push sends to a stream: the engine's answer to such reports; nothing on an error or if unbound. */
  ghost predicate Pushes(engine: Engine, st: Stream, actions: seq<BucketAction>) {
    if !st.bound || st.subs == map[] then actions == []
    else exists reports, keys :: IsSnapshot(reports, keys, st.subs)
           && var answer := engine(st.domain, reports); actions == if answer.Some? then answer.value else []
  }

  method SnapshotReports(subs: map<BucketKey, BucketId>) returns (reports: seq<UsageReport>)
    ensures exists keys :: IsSnapshot(reports, keys, subs)
  {
    var keys := CollectKeys(subs);
    assert forall k :: k in keys <==> k in Elements(keys);
    reports := [];
    for i := 0 to |keys|
      invariant |reports| == i
      invariant forall j :: 0 <= j < i ==> reports[j] == UsageReport(Some(subs[keys[j]]), UsageState(0, 0))
    {
      reports := reports + [UsageReport(Some(subs[keys[i]]), UsageState(0, 0))];
    }
    assert IsSnapshot(reports, keys, subs);
  }

  lemma OfOneStream(t0: seq<Move>, t: seq<Move>, sid: Sid, req: Request, metric: Metric, engine: Engine, sent: bool)
    requires MessageMoves(t0, t, sid, req, metric, engine, sent)
    ensures OwnMoves(t0, t, sid)
  {}

  /** If all moves are of one stream, then so are all effects. */
  lemma {:induction false} OwnEffects(l: Limits, s: State, ms: seq<Move>, sid: Sid)
    requires RunFrom(l, s, ms).Some? && forall i :: 0 <= i < |ms| ==> ms[i].Act? && ms[i].sid == sid
    ensures RunFrom(l, s, ms).value.log == s.log + EffectsOf(l, s, ms, sid)
    ensures |Choices(ms, sid)| == |ms| && forall i :: 0 <= i < |ms| ==> Choices(ms, sid)[i] == ms[i].choice
  {
    hide Local, Apply;
    if ms == [] {
    } else {
      OwnEffects(l, s, ms[..|ms| - 1], sid);
    }
  }

  /** The moves of a message, made without interruption, obey the law. */
  lemma MessageTrace(l: Limits, t0: seq<Move>, t: seq<Move>, sid: Sid, req: Request, metric: Metric, engine: Engine,
                     sent: bool)
    requires Run(l, t0).Some? && Run(l, t).Some? && MessageMoves(t0, t, sid, req, metric, engine, sent)
    requires sid in Run(l, t0).value.streams && Run(l, t0).value.streams[sid].pc.Idle?
    ensures sid in Run(l, t).value.streams && Run(l, t0).value.log <= Run(l, t).value.log
    ensures var s0, s := Run(l, t0).value, Run(l, t).value;
            var st := s.streams[sid];
            st.pc.Idle? || st.pc.Closing? ==>
              MessageLaw(l, s0.streams[sid], req, metric, engine, sent, st, s.log[|s0.log|..])
  {
    hide RunFrom, MessageLaw, Choices, EffectsOf;
    var s0, ms := Run(l, t0).value, t[|t0|..];
    assert t == t0 + ms;
    RunFromAppend(l, INITIAL, t0, ms);
    OwnEffects(l, s0, ms, sid);
    assert forall i :: 0 <= i < |ms| ==> ms[i] == t[|t0| + i];
    EveryMessageIsLawful(l, s0, ms, sid, req, metric, engine, sent);
  }

  /** Moves of one stream, made while the others are between messages, are serial and leave the others there. */
  lemma {:induction false} OwnMovesAreSerial(l: Limits, t0: seq<Move>, t: seq<Move>, sid: Sid)
    requires Run(l, t0).Some? && Run(l, t).Some? && OwnMoves(t0, t, sid) && SerialRun(l, INITIAL, t0)
    requires Alone(Run(l, t0).value, sid) && sid in Run(l, t0).value.streams
    ensures SerialRun(l, INITIAL, t) && Alone(Run(l, t).value, sid)
    ensures Run(l, t).value.streams.Keys == Run(l, t0).value.streams.Keys
    decreases |t|
  {
    if t == t0 {
    } else {
      var prev, m := t[..|t| - 1], t[|t| - 1];
      assert Run(l, prev).Some?;
      OwnMovesAreSerial(l, t0, prev, sid);
    }
  }

  /** The reply is the engine's answer to exactly the reports that name a bucket, in order. */
  ghost predicate Answered(req: Request, engine: Engine, domain: string, reply: seq<BucketAction>) {
    if req.usages == [] then reply == [] else engine(domain, WithBucket(req.usages)) == Some(reply)
  }

  /** The moves since `t0` are all of stream `sid`. */
  ghost predicate OwnMoves(t0: seq<Move>, t: seq<Move>, sid: Sid) {
    t0 <= t && forall i :: |t0| <= i < |t| ==> t[i].Act? && t[i].sid == sid
  }

  /** They leave the environment no choice. */
  ghost predicate Continues(t0: seq<Move>, t: seq<Move>, sid: Sid) {
    t0 <= t && forall i :: |t0| <= i < |t| ==> t[i] == Act(sid, Go)
  }

  /** They are those of one message: one receive, then only this engine's and this send's answers. */
  ghost predicate MessageMoves(t0: seq<Move>, t: seq<Move>, sid: Sid, req: Request, metric: Metric, engine: Engine,
                               sent: bool)
  {
    && t0 < t && t[|t0|] == Act(sid, Recv(req, metric))
    && forall i :: |t0| < i < |t| ==>
         t[i] == Act(sid, Go) || t[i] == Act(sid, Consult(engine)) || t[i] == Act(sid, Send(sent))
  }
}
