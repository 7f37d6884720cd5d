/** What every interleaving of the stream protocol keeps. */
module Invariants {
  import opened Keys
  import opened Memory
  import opened Protocol

  // ---------------------------------------------------------------------------------------------
  // Counting over all streams
  // ---------------------------------------------------------------------------------------------

  ghost function HeldBy(s: State): map<Sid, set<BucketKey>> {
    map sid | sid in s.streams :: Held(s.streams[sid])
  }

  /** Streams that have counted a scoped key and not yet uncounted it. */
  ghost function Holders(f: map<Sid, set<BucketKey>>, k: BucketKey): set<Sid> {
    set sid | sid in f && k in f[sid]
  }

  lemma HoldersUpdate(f: map<Sid, set<BucketKey>>, sid: Sid, v: set<BucketKey>, k: BucketKey)
    ensures Holders(f[sid := v], k) == if k in v then Holders(f, k) + {sid} else Holders(f, k) - {sid}
  {}

  ghost function GaugedBy(s: State): map<Sid, (Metric, set<BucketKey>)> {
    map sid | sid in s.streams :: (s.streams[sid].metric, Gauged(s.streams[sid]))
  }

  /** The (stream, bucket) pairs that a metric label stands for. */
  ghost function Pairs(f: map<Sid, (Metric, set<BucketKey>)>, m: Metric): set<(Sid, BucketKey)> {
    set sid, b | sid in f && f[sid].0 == m && b in f[sid].1 :: (sid, b)
  }

  lemma PairsSame(f: map<Sid, (Metric, set<BucketKey>)>, sid: Sid, v: (Metric, set<BucketKey>), m: Metric)
    requires sid in f ==> f[sid].1 == v.1 && (v.1 != {} ==> f[sid].0 == v.0)
    requires sid !in f ==> v.1 == {}
    ensures Pairs(f[sid := v], m) == Pairs(f, m)
  {
    var g := f[sid := v];
    forall p ensures p in Pairs(g, m) <==> p in Pairs(f, m) {
      assert p == (p.0, p.1);
    }
  }

  lemma PairsOneMore(f: map<Sid, (Metric, set<BucketKey>)>, sid: Sid, v: (Metric, set<BucketKey>), m: Metric)
    requires sid in f && v.0 == f[sid].0 && OneMore(f[sid].1, v.1)
    ensures |Pairs(f[sid := v], m)| == |Pairs(f, m)| + if v.0 == m then 1 else 0
  {
    var x :| x !in f[sid].1 && v.1 == f[sid].1 + {x};
    var g := f[sid := v];
    var extra := if v.0 == m then {(sid, x)} else {};
    forall p ensures p in Pairs(g, m) <==> p in Pairs(f, m) + extra {
      assert p == (p.0, p.1);
    }
    assert Pairs(g, m) == Pairs(f, m) + extra;
    assert (sid, x) !in Pairs(f, m);
  }

  // ---------------------------------------------------------------------------------------------
  // The invariant
  // ---------------------------------------------------------------------------------------------

  /** `bucketRefs` holds exactly the positive holder counts. */
  ghost predicate RefsOk(s: State) {
    && (forall k :: k in s.shared.refs ==> s.shared.refs[k] > 0)
    && (forall k :: At(s.shared.refs, k) == |Holders(HeldBy(s), k)|)
  }

  /** A key in the store is referenced, or some stream is about to remove it. */
  ghost predicate StoreOk(s: State) {
    forall k :: k in s.shared.store ==>
      k in s.shared.refs || exists sid :: sid in s.streams && k in Waiting(s.streams[sid])
  }

  ghost predicate GaugeOk(s: State) {
    forall m :: At(s.shared.gauge, m) == |Pairs(GaugedBy(s), m)|
  }

  ghost predicate LiveOk(s: State) {
    forall sid :: sid in s.shared.live <==> sid in s.streams && InServer(s.streams[sid])
  }

  ghost predicate Inv(l: Limits, s: State) {
    && (forall sid :: sid in s.streams ==> StreamOk(l, s.streams[sid]))
    && LiveOk(s) && RefsOk(s) && StoreOk(s) && GaugeOk(s)
  }

  // --- one move ---

  /** The effect of a move as seen from outside: a stream changed from `was` to `st`. */
  ghost predicate Changes(s: State, sid: Sid, st: Stream, e: Effect, s': State) {
    s'.streams == s.streams[sid := st] && s'.shared == Apply(s.shared, sid, e) && s'.log == s.log + [e]
  }

  lemma RefsKept(s: State, sid: Sid, st: Stream, e: Effect, s': State)
    requires RefsOk(s) && Changes(s, sid, st, e, s')
    requires sid in s.streams && CountAccounted(s.streams[sid], e, st)
    ensures RefsOk(s')
    ensures e.Dec? ==> e.key in s.shared.refs
  {
    hide Held, Holders, Apply;
    var was, f := s.streams[sid], HeldBy(s);
    assert HeldBy(s') == f[sid := Held(st)];
    if e.Dec? {
      IsHolder(f, sid, e.key);
      assert At(s.shared.refs, e.key) == |Holders(f, e.key)|;
    }
    forall k ensures At(s'.shared.refs, k) == |Holders(HeldBy(s'), k)| {
      HoldersChange(f, sid, Held(st), k);
      assert At(s.shared.refs, k) == |Holders(f, k)|;
      RefsApplied(s.shared, sid, e, k);
    }
    PositiveAfter(s.shared, sid, e);
  }

  lemma IsHolder(f: map<Sid, set<BucketKey>>, sid: Sid, k: BucketKey)
    requires sid in f && k in f[sid]
    ensures |Holders(f, k)| > 0
  {
    assert sid in Holders(f, k);
  }

  /** How a holder count follows a change of one stream. */
  lemma HoldersChange(f: map<Sid, set<BucketKey>>, sid: Sid, v: set<BucketKey>, k: BucketKey)
    requires sid in f
    ensures |Holders(f[sid := v], k)|
         == |Holders(f, k)| + (if k in v then 1 else 0) - (if k in f[sid] then 1 else 0)
  {
    HoldersUpdate(f, sid, v, k);
    assert sid in Holders(f, k) <==> k in f[sid];
  }

  /** How a reference count follows an effect. */
  lemma RefsApplied(sh: Shared, sid: Sid, e: Effect, k: BucketKey)
    requires forall x :: x in sh.refs ==> sh.refs[x] > 0
    requires e.Dec? ==> e.key in sh.refs
    ensures At(Apply(sh, sid, e).refs, k)
         == At(sh.refs, k) + if e == Inc(k) then 1 else if e == Dec(k) then -1 else 0
  {}

  lemma PositiveAfter(sh: Shared, sid: Sid, e: Effect)
    requires forall x :: x in sh.refs ==> sh.refs[x] > 0
    ensures forall x :: x in Apply(sh, sid, e).refs ==> Apply(sh, sid, e).refs[x] > 0
  {}

  lemma StoreKept(s: State, sid: Sid, st: Stream, e: Effect, s': State)
    requires RefsOk(s) && StoreOk(s) && Changes(s, sid, st, e, s')
    requires sid in s.streams && CountAccounted(s.streams[sid], e, st)
    requires RemovalAccounted(s.streams[sid], e, st, IsLast(s.shared, s.streams[sid]))
    requires e.Dec? ==> IsLast(s.shared, s.streams[sid]) == (At(s.shared.refs, e.key) - 1 <= 0)
    ensures StoreOk(s')
  {
    hide Held, Waiting, IsLast;
    if e.Record? {
      assert sid in Holders(HeldBy(s), e.key);
      assert At(s.shared.refs, e.key) == |Holders(HeldBy(s), e.key)|;
    }
    forall k | k in s'.shared.store
      ensures k in s'.shared.refs || exists id :: id in s'.streams && k in Waiting(s'.streams[id])
    {
      if k in s.shared.store && k !in s.shared.refs {
        var id :| id in s.streams && k in Waiting(s.streams[id]);
        assert id != sid ==> s'.streams[id] == s.streams[id];
        assert s'.streams[sid] == st;
        assert id in s'.streams && k in Waiting(s'.streams[id]);
      } else {
        assert s'.streams[sid] == st;
      }
    }
  }

  lemma GaugeKept(s: State, sid: Sid, st: Stream, e: Effect, s': State)
    requires GaugeOk(s) && Changes(s, sid, st, e, s')
    requires sid in s.streams && GaugeAccounted(s.streams[sid], e, st)
    ensures GaugeOk(s')
  {
    hide Gauged, Pairs, OneMore;
    var was, f, v := s.streams[sid], GaugedBy(s), (st.metric, Gauged(st));
    assert GaugedBy(s') == f[sid := v];
    forall m ensures At(s'.shared.gauge, m) == |Pairs(GaugedBy(s'), m)| {
      assert At(s.shared.gauge, m) == |Pairs(f, m)|;
      if e.GaugeUp? {
        PairsOneMore(f, sid, v, m);
      } else if e.GaugeDown? {
        PairsOneMore(f[sid := v], sid, f[sid], m);
        assert f[sid := v][sid := f[sid]] == f;
      } else {
        PairsSame(f, sid, v, m);
      }
    }
  }

  lemma NextKeepsInv(l: Limits, s: State, m: Move)
    requires Inv(l, s) && Next(l, s, m).Some?
    ensures Inv(l, Next(l, s, m).value)
    ensures m.Act? ==> var e := Local(l, s.streams[m.sid], m.choice, IsLast(s.shared, s.streams[m.sid])).value.1;
                       e.Dec? ==> e.key in s.shared.refs
  {
    hide Local, StreamOk, RefsOk, StoreOk, GaugeOk;
    var s', sid := Next(l, s, m).value, m.sid;
    if m.Open? {
      OpenKeepsInv(l, s, sid);
    } else {
      var was := s.streams[sid];
      var (st, e) := Local(l, was, m.choice, IsLast(s.shared, was)).value;
      LocalOk(l, was, m.choice, IsLast(s.shared, was));
      LocalCounts(l, was, m.choice, IsLast(s.shared, was));
      LocalGauges(l, was, m.choice, IsLast(s.shared, was));
      LocalRemoves(l, was, m.choice, IsLast(s.shared, was));
      DecAgrees(l, s.shared, was, m.choice);
      RefsKept(s, sid, st, e, s');
      StoreKept(s, sid, st, e, s');
      GaugeKept(s, sid, st, e, s');
    }
  }

  /** A decrement is told whether it is the last by the count it finds. */
  lemma DecAgrees(l: Limits, sh: Shared, st: Stream, c: Choice)
    requires Local(l, st, c, IsLast(sh, st)).Some?
    ensures var (_, e) := Local(l, st, c, IsLast(sh, st)).value;
            e.Dec? ==> IsLast(sh, st) == (At(sh.refs, e.key) - 1 <= 0)
  {
    hide TakeUsage, TakeAction, DomainScopedKey;
  }

  lemma OpenKeepsInv(l: Limits, s: State, sid: Sid)
    requires Inv(l, s) && sid !in s.streams
    ensures Inv(l, Next(l, s, Open(sid)).value)
  {
    hide RefsOk, StoreOk, GaugeOk, StreamOk;
    OpenedIsOk(l);
    OpenKeepsCounts(l, s, sid);
    OpenKeepsStore(l, s, sid);
  }

  lemma OpenKeepsCounts(l: Limits, s: State, sid: Sid)
    requires RefsOk(s) && GaugeOk(s) && sid !in s.streams
    ensures RefsOk(Next(l, s, Open(sid)).value) && GaugeOk(Next(l, s, Open(sid)).value)
  {
    hide Pairs, Holders, Held, Gauged;
    var s' := Next(l, s, Open(sid)).value;
    OpenedIsOk(l);
    assert HeldBy(s') == HeldBy(s)[sid := {}];
    assert GaugedBy(s') == GaugedBy(s)[sid := ("", {})];
    forall k ensures Holders(HeldBy(s'), k) == Holders(HeldBy(s), k) {
      HoldersUpdate(HeldBy(s), sid, {}, k);
      NotAHolder(HeldBy(s), sid, k);
    }
    forall m ensures Pairs(GaugedBy(s'), m) == Pairs(GaugedBy(s), m) {
      PairsSame(GaugedBy(s), sid, ("", {}), m);
    }
  }

  lemma OpenKeepsStore(l: Limits, s: State, sid: Sid)
    requires StoreOk(s) && sid !in s.streams
    ensures StoreOk(Next(l, s, Open(sid)).value)
  {
    var s' := Next(l, s, Open(sid)).value;
    forall k | k in s'.shared.store
      ensures k in s'.shared.refs || exists id :: id in s'.streams && k in Waiting(s'.streams[id])
    {
      if k !in s.shared.refs {
        var id :| id in s.streams && k in Waiting(s.streams[id]);
        assert s'.streams[id] == s.streams[id];
      }
    }
  }

  lemma OpenedIsOk(l: Limits)
    ensures StreamOk(l, OPENED) && Held(OPENED) == {} && Gauged(OPENED) == {}
  {}

  lemma NotAHolder(f: map<Sid, set<BucketKey>>, sid: Sid, k: BucketKey)
    requires sid !in f
    ensures Holders(f, k) - {sid} == Holders(f, k)
  {}

  // --- every run ---

  /** The invariant holds after every run, whatever the interleaving. */
  lemma {:induction false} RunKeepsInv(l: Limits, ms: seq<Move>)
    requires Run(l, ms).Some?
    ensures Inv(l, Run(l, ms).value)
  {
    if ms == [] {
      assert forall k :: Holders(HeldBy(INITIAL), k) == {};
      assert forall m :: Pairs(GaugedBy(INITIAL), m) == {};
    } else {
      var prev := ms[..|ms| - 1];
      RunKeepsInv(l, prev);
      NextKeepsInv(l, Run(l, prev).value, ms[|ms| - 1]);
    }
  }

  // ---------------------------------------------------------------------------------------------
  // Consequences
  // ---------------------------------------------------------------------------------------------

  /**
    The reference count of a scoped key is the number of streams holding it, in every interleaving and
    also where different domains share scoped keys; stored counts are positive.
  */
  lemma RefsCountHolders(l: Limits, ms: seq<Move>, k: BucketKey)
    requires Run(l, ms).Some?
    ensures var s := Run(l, ms).value;
            var n := |Holders(HeldBy(s), k)|;
            if n == 0 then k !in s.shared.refs else k in s.shared.refs && s.shared.refs[k] == n
  {
    hide RunFrom, StreamOk, StoreOk, GaugeOk, Holders;
    RunKeepsInv(l, ms);
    var s := Run(l, ms).value;
    assert At(s.shared.refs, k) == |Holders(HeldBy(s), k)|;
  }

  /** No decrement ever hits a missing key. */
  lemma DecrementsFindTheirKey(l: Limits, ms: seq<Move>, sid: Sid, c: Choice)
    requires Run(l, ms).Some? && sid in Run(l, ms).value.streams
    requires var s := Run(l, ms).value; var st := s.streams[sid];
             Local(l, st, c, IsLast(s.shared, st)).Some? && Local(l, st, c, IsLast(s.shared, st)).value.1.Dec?
    ensures var s := Run(l, ms).value;
            Local(l, s.streams[sid], c, IsLast(s.shared, s.streams[sid])).value.1.key in s.shared.refs
  {
    hide RunFrom, Local;
    RunKeepsInv(l, ms);
    NextKeepsInv(l, Run(l, ms).value, Act(sid, c));
  }

  /** In every interleaving, a stored key is referenced or some stream is about to remove it. */
  lemma StoredIsReferencedOrAwaited(l: Limits, ms: seq<Move>, k: BucketKey)
    requires Run(l, ms).Some? && k in Run(l, ms).value.shared.store
    ensures var s := Run(l, ms).value;
            k in s.shared.refs || exists sid :: sid in s.streams && k in Waiting(s.streams[sid])
  {
    RunKeepsInv(l, ms);
  }

  /** Nothing leaks: once every stream has ended, by whatever path, no trace of any is left. */
  lemma EndedLeavesNothing(l: Limits, ms: seq<Move>)
    requires Run(l, ms).Some?
    requires var s := Run(l, ms).value; forall sid :: sid in s.streams ==> s.streams[sid].pc.Done?
    ensures var sh := Run(l, ms).value.shared;
            sh.live == {} && sh.refs == map[] && sh.store == map[] && forall m :: At(sh.gauge, m) == 0
  {
    hide RunFrom, StreamOk;
    RunKeepsInv(l, ms);
    AllDone(Run(l, ms).value);
  }

  lemma AllDone(s: State)
    requires LiveOk(s) && RefsOk(s) && StoreOk(s) && GaugeOk(s)
    requires forall sid :: sid in s.streams ==> s.streams[sid].pc.Done?
    ensures var sh := s.shared;
            sh.live == {} && sh.refs == map[] && sh.store == map[] && forall m :: At(sh.gauge, m) == 0
  {
    forall k ensures k !in s.shared.refs && k !in s.shared.store {
      NoHolders(s, k);
      assert At(s.shared.refs, k) == |Holders(HeldBy(s), k)|;
    }
    forall m ensures At(s.shared.gauge, m) == 0 {
      NoPairs(s, m);
      assert At(s.shared.gauge, m) == |Pairs(GaugedBy(s), m)|;
    }
  }

  lemma NoHolders(s: State, k: BucketKey)
    requires forall sid :: sid in s.streams ==> s.streams[sid].pc.Done?
    ensures Holders(HeldBy(s), k) == {}
  {}

  lemma NoPairs(s: State, m: Metric)
    requires forall sid :: sid in s.streams ==> s.streams[sid].pc.Done?
    ensures Pairs(GaugedBy(s), m) == {}
  {}

  /** Subscriptions of the streams in the server that carry a label. */
  ghost function Subscriptions(s: State, m: Metric): set<(Sid, BucketKey)> {
    set sid, b | sid in s.streams && InServer(s.streams[sid]) && s.streams[sid].metric == m
              && b in s.streams[sid].subs :: (sid, b)
  }

  /** At message boundaries the gauge of a label is the number of subscriptions under it; it is never negative. */
  lemma GaugeAtBoundaries(l: Limits, ms: seq<Move>, m: Metric)
    requires Run(l, ms).Some?
    ensures var s := Run(l, ms).value;
            && At(s.shared.gauge, m) >= 0
            && ((forall sid :: sid in s.streams ==> Quiet(s.streams[sid]))
                  ==> At(s.shared.gauge, m) == |Subscriptions(s, m)|)
  {
    hide RunFrom, StreamOk, Pairs, Subscriptions, RefsOk, StoreOk;
    var s := Run(l, ms).value;
    RunKeepsInv(l, ms);
    assert At(s.shared.gauge, m) == |Pairs(GaugedBy(s), m)|;
    if forall sid :: sid in s.streams ==> Quiet(s.streams[sid]) {
      QuietPairs(s, m);
    }
  }

  lemma QuietPairs(s: State, m: Metric)
    requires forall sid :: sid in s.streams ==> Quiet(s.streams[sid])
    ensures Pairs(GaugedBy(s), m) == Subscriptions(s, m)
  {
    forall p ensures p in Pairs(GaugedBy(s), m) <==> p in Subscriptions(s, m) {
      assert p == (p.0, p.1);
      assert p.0 in s.streams ==> Quiet(s.streams[p.0]);
    }
  }

  /** A stream that is bound stays bound to the same domain and label through any further moves. */
  lemma {:induction false} BindingIsForever(l: Limits, s: State, ms: seq<Move>, sid: Sid)
    requires Inv(l, s) && sid in s.streams && RunFrom(l, s, ms).Some?
    ensures var t := RunFrom(l, s, ms).value;
            Inv(l, t) && sid in t.streams && SameBinding(s.streams[sid], t.streams[sid])
  {
    hide Inv;
    if ms == [] {
    } else {
      var prev, m := ms[..|ms| - 1], ms[|ms| - 1];
      BindingIsForever(l, s, prev, sid);
      var t := RunFrom(l, s, prev).value;
      NextKeepsInv(l, t, m);
      assert sid in Next(l, t, m).value.streams && SameBinding(t.streams[sid], Next(l, t, m).value.streams[sid]) by {
        NextKeepsBinding(l, t, m, sid);
      }
    }
  }

  lemma NextKeepsBinding(l: Limits, s: State, m: Move, sid: Sid)
    requires Inv(l, s) && Next(l, s, m).Some? && sid in s.streams
    ensures var t := Next(l, s, m).value;
            sid in t.streams && SameBinding(s.streams[sid], t.streams[sid])
  {
    hide Local, StreamOk, RefsOk, StoreOk, GaugeOk;
    if m.Act? && m.sid == sid {
      LocalOk(l, s.streams[sid], m.choice, IsLast(s.shared, s.streams[sid]));
    }
  }

  /** What each stream of every run looks like: one non-empty domain, lawful subscriptions, none before binding. */
  lemma StreamsAreLawful(l: Limits, ms: seq<Move>, sid: Sid)
    requires Run(l, ms).Some? && sid in Run(l, ms).value.streams
    ensures var st := Run(l, ms).value.streams[sid];
            && (st.bound ==> st.domain != "")
            && (!st.bound ==> st.subs == map[])
            && (l.maxBucketsPerStream > 0 ==> |st.subs| <= l.maxBucketsPerStream)
            && (forall k :: k in st.subs ==> k == KeyOf(st.subs[k]) && ValidBucket(l, st.subs[k]))
  {
    RunKeepsInv(l, ms);
  }
}
