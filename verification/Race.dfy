/**
  The window that `Serial.CountsAwaited` names is real: a removal decided while a bucket was unreferenced
  can hit it after another stream has subscribed to it and reported usage.
*/
module Race {
  import opened Keys
  import opened Memory
  import opened Api
  import opened Protocol
  import C = Classifier
  import E = Engine
  import Push

  const NO_LIMITS := Limits(0, 0, 0, 0, 0)
  const ID: BucketId := map["name" := "web"]
  const REPORT := UsageReport(Some(ID), UsageState(1, 0))
  const REQUEST := Request("prod", [REPORT])

  ghost function Key(): BucketKey {
    KeyOf(ID)
  }

  ghost function ScopedKey(): BucketKey {
    DomainScopedKey("prod", Key())
  }

  /** The engine answers the report with one assignment. */
  predicate Assigns(engine: Engine, a: BucketAction) {
    a.Assign? && engine("prod", [REPORT]) == Some([a])
  }

  /** A stream that has just recorded its only report. */
  ghost function Reported(): Stream {
    Stream("prod", "prod", true, map[Key() := ID], Reporting([], [REPORT]))
  }

  function Subscribe(sid: Sid): seq<Move> {
    [Act(sid, Recv(REQUEST, "prod")), Act(sid, Go), Act(sid, Go), Act(sid, Go), Act(sid, Go)]
  }

  /** The reply cannot be sent, so the stream ends and decides to remove its bucket, but has not removed it yet. */
  ghost function Depart(sid: Sid, engine: Engine): seq<Move> {
    [Act(sid, Consult(engine)), Act(sid, Go), Act(sid, Send(false)), Act(sid, Go), Act(sid, Visit(Key())),
     Act(sid, Go)]
  }

  /** A run is a chain of states. */
  lemma {:induction false} RunOfChain(l: Limits, ms: seq<Move>, states: seq<State>)
    requires |states| == |ms| + 1
    requires forall i :: 0 <= i < |ms| ==> Next(l, states[i], ms[i]) == Some(states[i + 1])
    ensures RunFrom(l, states[0], ms) == Some(states[|ms|])
  {
    hide Next;
    if ms == [] {
    } else {
      RunOfChain(l, ms[..|ms| - 1], states[..|ms|]);
    }
  }

  /** One move of a stream whose local step is known. */
  ghost function Moved(s: State, sid: Sid, st: Stream, e: Effect): State {
    State(s.streams[sid := st], Apply(s.shared, sid, e), s.log + [e])
  }

  lemma MovesTo(s: State, sid: Sid, c: Choice, st: Stream, e: Effect)
    requires sid in s.streams
    requires Local(NO_LIMITS, s.streams[sid], c, IsLast(s.shared, s.streams[sid])) == Some((st, e))
    ensures Next(NO_LIMITS, s, Act(sid, c)) == Some(Moved(s, sid, st, e))
    ensures Moved(s, sid, st, e).streams[sid] == st
  {
    hide Local;
  }

  ghost function Standing(pc: Pc): Stream {
    Reported().(pc := pc)
  }

  lemma SubscribeLocally(last: bool)
    ensures var unsubscribed := Standing(Reporting([REPORT], [])).(subs := map[]);
            && Local(NO_LIMITS, OPENED, Recv(REQUEST, "prod"), last) == Some((unsubscribed, Nothing))
            && Local(NO_LIMITS, unsubscribed, Go, last) == Some((Standing(Counting(Key(), [REPORT], [])), Nothing))
    ensures Local(NO_LIMITS, Standing(Counting(Key(), [REPORT], [])), Go, last)
         == Some((Standing(Gauging(Key(), [REPORT], [])), Inc(ScopedKey())))
    ensures Local(NO_LIMITS, Standing(Gauging(Key(), [REPORT], [])), Go, last)
         == Some((Standing(Recording(Key(), [REPORT], [])), GaugeUp("prod")))
    ensures Local(NO_LIMITS, Standing(Recording(Key(), [REPORT], [])), Go, last)
         == Some((Reported(), Record(ScopedKey(), REPORT.usage)))
  {
    hide KeyOf, DomainScopedKey;
    assert |ID| == 1 && ValidBucket(NO_LIMITS, ID);
    assert [REPORT][1..] == [] && [] + [REPORT] == [REPORT];
  }

  lemma Subscribes(s: State, sid: Sid) returns (t: State)
    requires sid in s.streams && s.streams[sid] == OPENED
    ensures RunFrom(NO_LIMITS, s, Subscribe(sid)) == Some(t)
    ensures t.streams == s.streams[sid := Reported()]
    ensures t.shared.refs == s.shared.refs[ScopedKey() := At(s.shared.refs, ScopedKey()) + 1]
    ensures ScopedKey() in t.shared.store
  {
    hide Key, ScopedKey, Local, Next, RunFrom, IsLast;
    forall last { SubscribeLocally(last); }
    var unsubscribed := Standing(Reporting([REPORT], [])).(subs := map[]);
    MovesTo(s, sid, Recv(REQUEST, "prod"), unsubscribed, Nothing);
    var s1 := Moved(s, sid, unsubscribed, Nothing);
    MovesTo(s1, sid, Go, Standing(Counting(Key(), [REPORT], [])), Nothing);
    var s2 := Moved(s1, sid, Standing(Counting(Key(), [REPORT], [])), Nothing);
    MovesTo(s2, sid, Go, Standing(Gauging(Key(), [REPORT], [])), Inc(ScopedKey()));
    var s3 := Moved(s2, sid, Standing(Gauging(Key(), [REPORT], [])), Inc(ScopedKey()));
    MovesTo(s3, sid, Go, Standing(Recording(Key(), [REPORT], [])), GaugeUp("prod"));
    var s4 := Moved(s3, sid, Standing(Recording(Key(), [REPORT], [])), GaugeUp("prod"));
    MovesTo(s4, sid, Go, Reported(), Record(ScopedKey(), REPORT.usage));
    t := Moved(s4, sid, Reported(), Record(ScopedKey(), REPORT.usage));
    RunOfChain(NO_LIMITS, Subscribe(sid), [s, s1, s2, s3, s4, t]);
  }

  lemma DepartLocally(engine: Engine, a: BucketAction, last: bool)
    requires Assigns(engine, a)
    ensures Local(NO_LIMITS, Reported(), Consult(engine), last) == Some((Standing(Acting([a], [a])), Nothing))
    ensures Local(NO_LIMITS, Standing(Acting([a], [a])), Go, last) == Some((Standing(Acting([], [a])), Nothing))
    ensures Local(NO_LIMITS, Standing(Acting([], [a])), Send(false), last) == Some((Standing(Closing), Reply([a])))
    ensures Local(NO_LIMITS, Standing(Closing), Go, last) == Some((Standing(Draining({Key()})), Leave))
    ensures Local(NO_LIMITS, Standing(Draining({Key()})), Visit(Key()), last)
         == Some((Standing(DrainUncounting(Key(), {})), GaugeDown("prod")))
    ensures Local(NO_LIMITS, Standing(DrainUncounting(Key(), {})), Go, true)
         == Some((Standing(DrainRemoving(Key(), {})), Dec(ScopedKey())))
  {
    hide KeyOf, DomainScopedKey;
    assert Reported().subs.Keys == {Key()} && {Key()} - {Key()} == {};
    assert [a][1..] == [];
  }

  lemma RemoveLocally(last: bool)
    ensures Local(NO_LIMITS, Standing(DrainRemoving(Key(), {})), Go, last)
         == Some((Standing(Draining({})), Remove(ScopedKey())))
  {
    hide KeyOf, DomainScopedKey;
  }

  lemma Departs(s: State, sid: Sid, engine: Engine, a: BucketAction) returns (t: State)
    requires sid in s.streams && s.streams[sid] == Reported() && At(s.shared.refs, ScopedKey()) == 1
    requires Assigns(engine, a)
    ensures RunFrom(NO_LIMITS, s, Depart(sid, engine)) == Some(t)
    ensures t.streams == s.streams[sid := Standing(DrainRemoving(Key(), {}))]
    ensures t.shared.refs == s.shared.refs - {ScopedKey()}
  {
    hide Key, KeyOf, DomainScopedKey, Local, Next, RunFrom;
    forall last { DepartLocally(engine, a, last); }
    MovesTo(s, sid, Consult(engine), Standing(Acting([a], [a])), Nothing);
    var s1 := Moved(s, sid, Standing(Acting([a], [a])), Nothing);
    MovesTo(s1, sid, Go, Standing(Acting([], [a])), Nothing);
    var s2 := Moved(s1, sid, Standing(Acting([], [a])), Nothing);
    MovesTo(s2, sid, Send(false), Standing(Closing), Reply([a]));
    var s3 := Moved(s2, sid, Standing(Closing), Reply([a]));
    MovesTo(s3, sid, Go, Standing(Draining({Key()})), Leave);
    var s4 := Moved(s3, sid, Standing(Draining({Key()})), Leave);
    MovesTo(s4, sid, Visit(Key()), Standing(DrainUncounting(Key(), {})), GaugeDown("prod"));
    var s5 := Moved(s4, sid, Standing(DrainUncounting(Key(), {})), GaugeDown("prod"));
    MovesTo(s5, sid, Go, Standing(DrainRemoving(Key(), {})), Dec(ScopedKey()));
    t := Moved(s5, sid, Standing(DrainRemoving(Key(), {})), Dec(ScopedKey()));
    RunOfChain(NO_LIMITS, Depart(sid, engine), [s, s1, s2, s3, s4, s5, t]);
  }

  /** The first stream reports and departs, the second subscribes and reports, then the first removes. */
  ghost function Moves(engine: Engine): seq<Move> {
    [Open(0)] + Subscribe(0) + Depart(0, engine) + [Open(1)] + Subscribe(1) + [Act(0, Go)]
  }

  lemma RemovedUnderAny(engine: Engine, a: BucketAction)
    requires Assigns(engine, a)
    ensures Run(NO_LIMITS, Moves(engine)).Some?
    ensures var s := Run(NO_LIMITS, Moves(engine)).value;
            && 1 in s.streams && s.streams[1] == Reported() && ScopedKey() in Held(s.streams[1])
            && ScopedKey() in s.shared.refs && ScopedKey() !in s.shared.store
  {
    hide Key, ScopedKey, KeyOf, DomainScopedKey, RunFrom, Next, Local, IsLast;
    var l := NO_LIMITS;
    var s1 := Opens(INITIAL, 0);
    var s2 := Subscribes(s1, 0);
    var s3 := Departs(s2, 0, engine, a);
    var s4 := Opens(s3, 1);
    var s5 := Subscribes(s4, 1);
    RemoveLocally(IsLast(s5.shared, s5.streams[0]));
    MovesTo(s5, 0, Go, Standing(Draining({})), Remove(ScopedKey()));
    RunOfChain(l, [Act(0, Go)], [s5, Moved(s5, 0, Standing(Draining({})), Remove(ScopedKey()))]);
    RunFromAppend(l, INITIAL, [Open(0)], Subscribe(0));
    RunFromAppend(l, INITIAL, [Open(0)] + Subscribe(0), Depart(0, engine));
    RunFromAppend(l, INITIAL, [Open(0)] + Subscribe(0) + Depart(0, engine), [Open(1)]);
    RunFromAppend(l, INITIAL, [Open(0)] + Subscribe(0) + Depart(0, engine) + [Open(1)], Subscribe(1));
    RunFromAppend(l, INITIAL, [Open(0)] + Subscribe(0) + Depart(0, engine) + [Open(1)] + Subscribe(1), [Act(0, Go)]);
    ReportedHoldsKey();
  }

  /**
    With any engine the server can be configured with: the second stream has reported, its bucket is
    referenced, and the store has lost it.
  */
  lemma ReferencedBucketRemoved(lib: C.Lib, e: E.QuotaEngine)
    ensures var engine := Push.AsEngine(lib, e);
            && Run(NO_LIMITS, Moves(engine)).Some?
            && var s := Run(NO_LIMITS, Moves(engine)).value;
            && 1 in s.streams && s.streams[1] == Reported() && ScopedKey() in Held(s.streams[1])
            && ScopedKey() in s.shared.refs && ScopedKey() !in s.shared.store
  {
    hide Run, E.AssignmentFor;
    assert "name" in ID;
    Push.ProcessOne(lib, e, "prod", REPORT);
    assert Assigns(Push.AsEngine(lib, e), E.Process(lib, e, "prod", [REPORT])[0]);
    RemovedUnderAny(Push.AsEngine(lib, e), E.Process(lib, e, "prod", [REPORT])[0]);
  }

  lemma ReportedHoldsKey()
    ensures ScopedKey() in Held(Reported())
  {
    hide KeyOf, DomainScopedKey;
    assert Key() in HeldKeys(Reported());
    assert Scoped(Reported(), Key()) == ScopedKey();
  }

  lemma Opens(s: State, sid: Sid) returns (t: State)
    requires sid !in s.streams
    ensures RunFrom(NO_LIMITS, s, [Open(sid)]) == Some(t)
    ensures t.streams == s.streams[sid := OPENED] && t.shared.refs == s.shared.refs
  {
    t := State(s.streams[sid := OPENED], Apply(s.shared, sid, Join), s.log + [Join]);
    RunOfChain(NO_LIMITS, [Open(sid)], [s, t]);
  }
}
