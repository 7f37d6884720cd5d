/**
  Which critical section each move of the stream protocol is, and that moves of different streams in
  different sections are independent: the order in which they happen does not matter.
*/
module Guards {
  import opened Keys
  import opened Api
  import opened Protocol
  import opened Locking

  type State = Protocol.State

  /** The sections entered by one move; `admits` tells whether a classifier call goes on to its write lock. */
  function Sections(l: Limits, sid: Sid, st: Stream, c: Choice, admits: bool): seq<Section> {
    match st.pc
    case Idle => if c.Recv? then [Bind(sid, !st.bound && c.req.domain != "", admits)] else []
    case Reporting(us, _) =>
      if us != [] && HasBucket(us[0]) && ValidBucket(l, us[0].id.value) then [StreamOnly(sid)] else []
    case Counting(_, _, _) => [ServerOnly]
    case Recording(_, _, _) => [StoreWrite]
    case Acting(actions, _) =>
      if actions == [] then [SendOne(sid)] else if actions[0].Abandon? then [StreamOnly(sid)] else []
    case Uncounting(_, _, _) => [ServerOnly]
    case Removing(_, _, _) => [StoreWrite]
    case Closing => [ServerOnly]
    case DrainUncounting(_, _) => [ServerOnly]
    case DrainRemoving(_, _) => [StoreWrite]
    case _ => []
  }

  /**
    A move enters at most one critical section, and changes shared data only inside the section that
    guards it: reference counts and membership under the server lock, the store under its own, and a
    stream's binding and subscriptions under that stream's.
  */
  lemma MovesAreGuarded(l: Limits, sid: Sid, st: Stream, c: Choice, last: bool, admits: bool)
    requires Local(l, st, c, last).Some?
    ensures var (st', e) := Local(l, st, c, last).value;
            var ss := Sections(l, sid, st, c, admits);
            && |ss| <= 1
            && (e.Inc? || e.Dec? || e.Leave? ==> ss == [ServerOnly])
            && (e.Record? || e.Remove? ==> ss == [StoreWrite])
            && (e.Reply? ==> ss == [SendOne(sid)])
            && (st'.(pc := st.pc) != st ==> ss != [] && Ops(ss[0])[0] == Acquire(StreamMu(sid), false))
            && (st'.metric != st.metric ==> Acquire(ClassifierMu, true) in Ops(ss[0]))
  {
    hide KeyOf, CanonicalKey, DomainScopedKey, ValidBucket, StatsOps;
    var (st', e) := Local(l, st, c, last).value;
    if st.pc.Idle? && c.Recv? && !st.bound && c.req.domain != "" {
      assert Ops(Bind(sid, true, admits))[1] == Acquire(ClassifierMu, true);
    }
  }

  // ---------------------------------------------------------------------------------------------
  // Independent moves
  // ---------------------------------------------------------------------------------------------

  /** Moves of different streams that do not enter the same section. */
  predicate Independent(l: Limits, s: State, i: Sid, a: Choice, j: Sid, b: Choice)
    requires i in s.streams && j in s.streams
  {
    && i != j
    && var x, y := Sections(l, i, s.streams[i], a, false), Sections(l, j, s.streams[j], b, false);
       x == [] || x != y
  }

  /** The effect touches the membership or the reference counts. */
  predicate Server(e: Effect) {
    e.Join? || e.Leave? || e.Inc? || e.Dec?
  }

  predicate Store(e: Effect) {
    e.Record? || e.Remove?
  }

  predicate Gauge(e: Effect) {
    e.GaugeUp? || e.GaugeDown?
  }

  /** What an effect makes of each field depends on that field alone. */
  lemma ByField(sh: Shared, sh': Shared, i: Sid, e: Effect)
    ensures sh'.live == sh.live ==> Apply(sh', i, e).live == Apply(sh, i, e).live
    ensures sh'.refs == sh.refs ==> Apply(sh', i, e).refs == Apply(sh, i, e).refs
    ensures sh'.store == sh.store ==> Apply(sh', i, e).store == Apply(sh, i, e).store
    ensures sh'.gauge == sh.gauge ==> Apply(sh', i, e).gauge == Apply(sh, i, e).gauge
  {}

  lemma Untouched(sh: Shared, i: Sid, e: Effect)
    ensures !Server(e) ==> Apply(sh, i, e).live == sh.live && Apply(sh, i, e).refs == sh.refs
    ensures !Store(e) ==> Apply(sh, i, e).store == sh.store
    ensures !Gauge(e) ==> Apply(sh, i, e).gauge == sh.gauge
  {}

  lemma GaugesCommute(sh: Shared, i: Sid, d: Effect, j: Sid, e: Effect)
    requires Gauge(d) && Gauge(e)
    ensures Apply(Apply(sh, i, d), j, e).gauge == Apply(Apply(sh, j, e), i, d).gauge
  {
    var m, n := d.metric, e.metric;
    var a, b := Apply(sh, i, d).gauge[m], Apply(sh, j, e).gauge[n];
    assert m != n ==> sh.gauge[m := a][n := b] == sh.gauge[n := b][m := a];
  }

  lemma EffectsCommute(sh: Shared, i: Sid, d: Effect, j: Sid, e: Effect)
    requires !(Server(d) && Server(e)) && !(Store(d) && Store(e))
    ensures Apply(Apply(sh, i, d), j, e) == Apply(Apply(sh, j, e), i, d)
  {
    hide Apply;
    ByField(sh, Apply(sh, j, e), i, d);
    ByField(sh, Apply(sh, i, d), j, e);
    Untouched(sh, i, d);
    Untouched(sh, j, e);
    Untouched(Apply(sh, j, e), i, d);
    Untouched(Apply(sh, i, d), j, e);
    if Gauge(d) && Gauge(e) {
      GaugesCommute(sh, i, d, j, e);
    }
  }

  lemma LastUnaffected(sh: Shared, i: Sid, d: Effect, st: Stream)
    requires !Server(d) || !(st.pc.Uncounting? || st.pc.DrainUncounting?)
    ensures IsLast(Apply(sh, i, d), st) == IsLast(sh, st)
  {
    hide DomainScopedKey;
  }

  lemma JoinIsNoMove(l: Limits, st: Stream, c: Choice, last: bool)
    requires Local(l, st, c, last).Some?
    ensures var e := Local(l, st, c, last).value.1;
            !e.Join? && ((st.pc.Uncounting? || st.pc.DrainUncounting?) ==> e.Dec?)
  {
    hide TakeUsage, TakeAction, DomainScopedKey;
  }

  /** States that differ only in the order of their logs. */
  predicate SameButLog(s: State, t: State) {
    s.streams == t.streams && s.shared == t.shared
  }

  /** Independent moves can both be made in either order, and lead to the same state. */
  lemma IndependentMovesCommute(l: Limits, s: State, i: Sid, a: Choice, j: Sid, b: Choice)
    requires i in s.streams && j in s.streams && Independent(l, s, i, a, j, b)
    requires Next(l, s, Act(i, a)).Some? && Next(l, s, Act(j, b)).Some?
    ensures var s1, s2 := Next(l, s, Act(i, a)).value, Next(l, s, Act(j, b)).value;
            && Next(l, s1, Act(j, b)).Some? && Next(l, s2, Act(i, a)).Some?
            && SameButLog(Next(l, s1, Act(j, b)).value, Next(l, s2, Act(i, a)).value)
  {
    hide Local, Apply, Sections, IsLast;
    var st, tt := s.streams[i], s.streams[j];
    var (st', d) := Local(l, st, a, IsLast(s.shared, st)).value;
    var (tt', e) := Local(l, tt, b, IsLast(s.shared, tt)).value;
    MovesAreGuarded(l, i, st, a, IsLast(s.shared, st), false);
    MovesAreGuarded(l, j, tt, b, IsLast(s.shared, tt), false);
    JoinIsNoMove(l, st, a, IsLast(s.shared, st));
    JoinIsNoMove(l, tt, b, IsLast(s.shared, tt));
    EffectsCommute(s.shared, i, d, j, e);
    LastUnaffected(s.shared, i, d, tt);
    LastUnaffected(s.shared, j, e, st);
    assert s.streams[i := st'][j := tt'] == s.streams[j := tt'][i := st'];
  }

  /** What a move does, and whether it is possible, does not depend on the log. */
  lemma {:induction false} LogIsNotRead(l: Limits, s: State, t: State, ms: seq<Move>)
    requires SameButLog(s, t)
    ensures var u, v := RunFrom(l, s, ms), RunFrom(l, t, ms);
            (u.Some? <==> v.Some?) && (u.Some? ==> SameButLog(u.value, v.value))
  {
    hide Local, Apply, IsLast;
    if ms == [] {
    } else {
      LogIsNotRead(l, s, t, ms[..|ms| - 1]);
    }
  }

  /**
    In any run, two consecutive moves of different streams in different sections can be swapped: the rest
    of the run goes on as before, to the same streams and the same shared state.
  */
  lemma SwappedRunEndsTheSame(l: Limits, ms: seq<Move>, i: Sid, a: Choice, j: Sid, b: Choice, ns: seq<Move>)
    requires Run(l, ms).Some? && i in Run(l, ms).value.streams && j in Run(l, ms).value.streams
    requires Independent(l, Run(l, ms).value, i, a, j, b)
    requires Run(l, ms + [Act(i, a), Act(j, b)] + ns).Some?
    ensures Run(l, ms + [Act(j, b), Act(i, a)] + ns).Some?
    ensures SameButLog(Run(l, ms + [Act(i, a), Act(j, b)] + ns).value, Run(l, ms + [Act(j, b), Act(i, a)] + ns).value)
  {
    hide Local, Apply, Sections, IsLast, RunFrom, Independent;
    var s := Run(l, ms).value;
    TwoMore(l, ms, Act(i, a), Act(j, b), ns);
    TwoMore(l, ms, Act(j, b), Act(i, a), ns);
    EnabledBefore(l, s, i, a, j, b);
    IndependentMovesCommute(l, s, i, a, j, b);
    var s1, s2 := Next(l, s, Act(i, a)).value, Next(l, s, Act(j, b)).value;
    LogIsNotRead(l, Next(l, s1, Act(j, b)).value, Next(l, s2, Act(i, a)).value, ns);
  }

  /** The second move was possible before the first. */
  lemma EnabledBefore(l: Limits, s: State, i: Sid, a: Choice, j: Sid, b: Choice)
    requires i in s.streams && j in s.streams && Independent(l, s, i, a, j, b)
    requires Next(l, s, Act(i, a)).Some? && Next(l, Next(l, s, Act(i, a)).value, Act(j, b)).Some?
    ensures Next(l, s, Act(j, b)).Some?
  {
    hide Apply, IsLast, Sections, TakeUsage, TakeAction, Receive, Answer;
  }

  lemma TwoMore(l: Limits, ms: seq<Move>, m: Move, n: Move, ns: seq<Move>)
    requires Run(l, ms).Some?
    ensures var s := Run(l, ms).value;
            Run(l, ms + [m, n] + ns) ==
              if Next(l, s, m).None? || Next(l, Next(l, s, m).value, n).None? then None
              else RunFrom(l, Next(l, Next(l, s, m).value, n).value, ns)
  {
    hide Next;
    var s := Run(l, ms).value;
    RunFromAppend(l, INITIAL, ms, [m, n]);
    assert [m, n][..1] == [m] && [m][..0] == [];
    assert RunFrom(l, s, [m]) == Next(l, s, m);
    if RunFrom(l, s, [m, n]).Some? {
      RunFromAppend(l, INITIAL, ms + [m, n], ns);
    } else {
      NoneStaysNone(l, INITIAL, ms + [m, n], ns);
    }
  }

  lemma {:induction false} NoneStaysNone(l: Limits, s: State, ms: seq<Move>, ns: seq<Move>)
    requires RunFrom(l, s, ms).None?
    ensures RunFrom(l, s, ms + ns).None?
  {
    if ns == [] {
      assert ms + ns == ms;
    } else {
      NoneStaysNone(l, s, ms, ns[..|ns| - 1]);
      assert (ms + ns)[..|ms + ns| - 1] == ms + ns[..|ns| - 1];
    }
  }
}
