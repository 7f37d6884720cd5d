/** No stream gets stuck, and every run can be brought to an end at which nothing is left. */
module Progress {
  import opened Keys
  import opened Api
  import opened Protocol
  import opened Invariants

  /** What brings a stream closer to its end: receiving and sending fail, everything else goes on. */
  ghost function Hurry(st: Stream, engine: Engine): Choice {
    match st.pc
    case Idle => RecvFailed
    case Reporting(us, _) => if us == [] then Consult(engine) else Go
    case Acting(actions, _) => if actions == [] then Send(false) else Go
    case Draining(rest) => if rest == {} then Go else (var k :| k in rest; Visit(k))
    case _ => Go
  }

  /** The engine has yet to be asked; how many actions it will answer with is not known. */
  predicate BeforeAnswer(st: Stream) {
    st.pc.Reporting? || st.pc.Counting? || st.pc.Gauging? || st.pc.Recording?
  }

  /** How far a hurried stream is from the engine's answer, or from its end if it has that behind it. */
  function Distance(st: Stream): nat {
    var n := 3 * |st.subs|;
    match st.pc
    case Idle => n + 3
    case Reporting(us, _) => 1 + 4 * |us|
    case Counting(_, us, _) => 4 * |us|
    case Gauging(_, us, _) => 4 * |us| - if us == [] then 0 else 1
    case Recording(_, us, _) => 4 * |us| - if us == [] then 0 else 2
    case Acting(actions, _) => n + 3 + 4 * |actions|
    case Uncounting(_, actions, _) => n + 6 + 4 * |actions|
    case Removing(_, actions, _) => n + 5 + 4 * |actions|
    case Ungauging(_, actions, _) => n + 4 + 4 * |actions|
    case Closing => n + 2
    case Draining(rest) => 1 + 3 * |rest|
    case DrainUncounting(_, rest) => 3 + 3 * |rest|
    case DrainRemoving(_, rest) => 2 + 3 * |rest|
    case Done => 0
  }

  predicate Nearer(st: Stream, st': Stream) {
    if BeforeAnswer(st) then BeforeAnswer(st') ==> Distance(st') < Distance(st)
    else !BeforeAnswer(st') && Distance(st') < Distance(st)
  }

  /** A lawful stream that has not ended can move, and closer to its end. */
  lemma HurriedMoves(l: Limits, st: Stream, engine: Engine, last: bool)
    requires StreamOk(l, st) && !st.pc.Done?
    ensures Local(l, st, Hurry(st, engine), last).Some?
    ensures Nearer(st, Local(l, st, Hurry(st, engine), last).value.0)
  {
    hide StreamOk, TakeUsage, TakeAction, Scoped, Nearer;
    if st.pc.Reporting? && st.pc.usages != [] {
      TakeUsageNears(l, st);
    } else if st.pc.Acting? && st.pc.actions != [] {
      TakeActionNears(st);
    } else if st.pc.Draining? {
      DrainNears(l, st, engine, last);
    } else {
      OthersNear(l, st, engine, last);
    }
  }

  lemma DrainNears(l: Limits, st: Stream, engine: Engine, last: bool)
    requires st.pc.Draining?
    ensures Local(l, st, Hurry(st, engine), last).Some?
    ensures Nearer(st, Local(l, st, Hurry(st, engine), last).value.0)
  {
    hide Local, Nearer;
    if st.pc.rest == {} {
      LastDrain(l, st, last);
    } else {
      VisitNears(l, st, Hurry(st, engine).key, last);
    }
  }

  lemma LastDrain(l: Limits, st: Stream, last: bool)
    requires st.pc == Draining({})
    ensures Local(l, st, Go, last) == Some((st.(pc := Done), Nothing))
    ensures Nearer(st, st.(pc := Done))
  {}

  lemma VisitNears(l: Limits, st: Stream, k: BucketKey, last: bool)
    requires st.pc.Draining? && k in st.pc.rest
    ensures var next := st.(pc := DrainUncounting(k, st.pc.rest - {k}));
            Local(l, st, Visit(k), last) == Some((next, GaugeDown(st.metric))) && Nearer(st, next)
  {
    assert |st.pc.rest - {k}| == |st.pc.rest| - 1;
  }

  /** The positions at which nothing is looked up. */
  lemma OthersNear(l: Limits, st: Stream, engine: Engine, last: bool)
    requires StreamOk(l, st) && !st.pc.Done? && !st.pc.Draining?
    requires !(st.pc.Reporting? && st.pc.usages != []) && !(st.pc.Acting? && st.pc.actions != [])
    ensures Local(l, st, Hurry(st, engine), last).Some?
    ensures Nearer(st, Local(l, st, Hurry(st, engine), last).value.0)
  {
    hide SubsOk, CanonicalKey, TakeUsage, TakeAction, Scoped;
    assert |st.subs.Keys| == |st.subs|;
  }

  lemma TakeUsageNears(l: Limits, st: Stream)
    requires st.pc.Reporting? && st.pc.usages != []
    ensures Nearer(st, TakeUsage(l, st))
  {
    hide KeyOf, ValidBucket;
  }

  lemma TakeActionNears(st: Stream)
    requires st.pc.Acting? && st.pc.actions != []
    ensures Nearer(st, TakeAction(st))
  {
    hide CanonicalKey;
    SubsetSize(TakeAction(st).subs.Keys, st.subs.Keys);
  }

  /** In every reachable state, whatever the engine, a stream can move exactly until it has ended. */
  lemma NoStreamIsStuck(l: Limits, ms: seq<Move>, sid: Sid, engine: Engine)
    requires Run(l, ms).Some? && sid in Run(l, ms).value.streams
    ensures !Run(l, ms).value.streams[sid].pc.Done?
       <==> exists c: Choice :: (c.Consult? ==> c.engine == engine) && Run(l, ms + [Act(sid, c)]).Some?
  {
    hide RunFrom, Local, StreamOk, RefsOk, StoreOk, GaugeOk;
    var s := Run(l, ms).value;
    var st := s.streams[sid];
    RunKeepsInv(l, ms);
    forall c ensures Run(l, ms + [Act(sid, c)]) == Next(l, s, Act(sid, c)) {
      RunSnoc(l, INITIAL, ms, Act(sid, c));
    }
    if st.pc.Done? {
      DoneIsStuck(l, st, IsLast(s.shared, st));
    } else {
      HurriedMoves(l, st, engine, IsLast(s.shared, st));
      assert Run(l, ms + [Act(sid, Hurry(st, engine))]).Some?;
    }
  }

  lemma DoneIsStuck(l: Limits, st: Stream, last: bool)
    requires st.pc.Done?
    ensures forall c :: Local(l, st, c, last).None?
  {}

  lemma RunSnoc(l: Limits, s: State, ms: seq<Move>, m: Move)
    requires RunFrom(l, s, ms).Some?
    ensures RunFrom(l, s, ms + [m]) == Next(l, RunFrom(l, s, ms).value, m)
  {
    hide Next;
    assert (ms + [m])[..|ms + [m]| - 1] == ms;
  }

  /** The moves open no stream, receive no message and ask no other engine. */
  ghost predicate Winding(ns: seq<Move>, engine: Engine) {
    forall i :: 0 <= i < |ns| ==>
      ns[i].Act? && !ns[i].choice.Recv? && (ns[i].choice.Consult? ==> ns[i].choice.engine == engine)
  }

  /** Some moves of one stream end it and leave the other streams where they are. */
  lemma {:induction false} EndOne(l: Limits, ms: seq<Move>, sid: Sid, engine: Engine) returns (ns: seq<Move>)
    requires Run(l, ms).Some? && sid in Run(l, ms).value.streams
    ensures Run(l, ms + ns).Some? && Winding(ns, engine)
    ensures var s, t := Run(l, ms).value.streams, Run(l, ms + ns).value.streams;
            t.Keys == s.Keys && t[sid].pc.Done? && forall id :: id in s && id != sid ==> t[id] == s[id]
    decreases BeforeAnswer(Run(l, ms).value.streams[sid]), Distance(Run(l, ms).value.streams[sid])
  {
    hide RunFrom, Local, StreamOk, RefsOk, StoreOk, GaugeOk, Distance, BeforeAnswer;
    var s := Run(l, ms).value;
    var st := s.streams[sid];
    if st.pc.Done? {
      ns := [];
      assert ms + [] == ms;
    } else {
      RunKeepsInv(l, ms);
      HurriedMoves(l, st, engine, IsLast(s.shared, st));
      var m := Act(sid, Hurry(st, engine));
      RunSnoc(l, INITIAL, ms, m);
      var rest := EndOne(l, ms + [m], sid, engine);
      ns := [m] + rest;
      assert ms + [m] + rest == ms + ns;
    }
  }

  ghost function Unfinished(s: State): set<Sid> {
    set sid | sid in s.streams && !s.streams[sid].pc.Done?
  }

  lemma {:induction false} EndAll(l: Limits, ms: seq<Move>, engine: Engine) returns (ns: seq<Move>)
    requires Run(l, ms).Some?
    ensures Run(l, ms + ns).Some? && Unfinished(Run(l, ms + ns).value) == {} && Winding(ns, engine)
    decreases |Unfinished(Run(l, ms).value)|
  {
    hide RunFrom;
    var s := Run(l, ms).value;
    if Unfinished(s) == {} {
      ns := [];
      assert ms + [] == ms;
    } else {
      var sid :| sid in Unfinished(s);
      var first := EndOne(l, ms, sid, engine);
      var t := Run(l, ms + first).value;
      assert Unfinished(t) == Unfinished(s) - {sid};
      var rest := EndAll(l, ms + first, engine);
      ns := first + rest;
      assert ms + first + rest == ms + ns;
    }
  }

  /**
    From every reachable state, whatever the engine and without any new stream or message, the server can
    get to a state in which all streams have ended and nothing is left.
  */
  lemma EveryRunCanEnd(l: Limits, ms: seq<Move>, engine: Engine)
    requires Run(l, ms).Some?
    ensures exists ns ::
              && Winding(ns, engine) && Run(l, ms + ns).Some?
              && var t := Run(l, ms + ns).value;
              && (forall sid :: sid in t.streams ==> t.streams[sid].pc.Done?)
              && t.shared.live == {} && t.shared.refs == map[] && t.shared.store == map[]
  {
    hide RunFrom;
    var ns := EndAll(l, ms, engine);
    var t := Run(l, ms + ns).value;
    assert forall sid :: sid in t.streams ==> sid in Unfinished(t) || t.streams[sid].pc.Done?;
    EndedLeavesNothing(l, ms + ns);
  }
}
