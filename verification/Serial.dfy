/**
  When the store agrees with the reference counts. Between a last decrement and the removal it decides,
  another stream may count the key again; the agreement holds throughout a run exactly if none does.
  In particular it holds if whole messages and whole cleanups are atomic.
*/
module Serial {
  import opened Keys
  import opened Memory
  import opened Protocol
  import opened Invariants

  // ---------------------------------------------------------------------------------------------
  // Reading the past off the log
  // ---------------------------------------------------------------------------------------------

  /** Increments less decrements of a key. */
  function RefCount(log: seq<Effect>, k: BucketKey): int {
    if log == [] then 0
    else
      var n, e := RefCount(log[..|log| - 1], k), log[|log| - 1];
      if e == Inc(k) then n + 1 else if e == Dec(k) then n - 1 else n
  }

  /** The usage recorded for a key since its count last rose from zero. */
  function SumSince(log: seq<Effect>, k: BucketKey, f: Field): nat {
    if log == [] then 0
    else
      var prev, e := log[..|log| - 1], log[|log| - 1];
      if e == Inc(k) && RefCount(prev, k) == 0 then 0
      else if e.Record? && e.key == k then SumSince(prev, k, f) + e.usage.Get(f)
      else SumSince(prev, k, f)
  }

  lemma SumSinceSnoc(log: seq<Effect>, e: Effect, k: BucketKey, f: Field)
    ensures RefCount(log + [e], k) == RefCount(log, k) + if e == Inc(k) then 1 else if e == Dec(k) then -1 else 0
    ensures SumSince(log + [e], k, f) ==
            if e == Inc(k) && RefCount(log, k) == 0 then 0
            else SumSince(log, k, f) + if e.Record? && e.key == k then e.usage.Get(f) else 0
  {
    assert (log + [e])[..|log + [e]| - 1] == log;
  }

  // ---------------------------------------------------------------------------------------------
  // The invariant
  // ---------------------------------------------------------------------------------------------

  /** The key a stream has counted for a report that it has not recorded yet. */
  function Fresh(st: Stream): set<BucketKey> {
    if st.pc.Gauging? || st.pc.Recording? then {Scoped(st, st.pc.key)} else {}
  }

  ghost predicate IsFresh(s: State, k: BucketKey) {
    exists sid :: sid in s.streams && k in Fresh(s.streams[sid])
  }

  ghost predicate IsWaiting(s: State, k: BucketKey) {
    exists sid :: sid in s.streams && k in Waiting(s.streams[sid])
  }

  /** The log explains the counts, and the counters of referenced keys. */
  ghost predicate Explained(s: State) {
    && (forall k :: At(s.shared.refs, k) == RefCount(s.log, k))
    && (forall k, f :: k in s.shared.refs ==> Count(s.shared.store, k, f) == SumSince(s.log, k, f) % TWO64)
  }

  /** Referenced keys are stored unless just counted, and keys awaiting removal are unreferenced. */
  ghost predicate Matched(s: State) {
    && (forall k :: k in s.shared.refs ==> k in s.shared.store || IsFresh(s, k))
    && (forall k :: IsWaiting(s, k) ==> k !in s.shared.refs)
  }

  /** The move counts a key that some stream has decided to remove and has not removed yet. */
  ghost predicate CountsAwaited(s: State, m: Move) {
    && m.Act? && m.choice.Go? && m.sid in s.streams && s.streams[m.sid].pc.Counting?
    && IsWaiting(s, Scoped(s.streams[m.sid], s.streams[m.sid].pc.key))
  }

  /** No move of the run does. */
  ghost predicate Undisturbed(l: Limits, s: State, ms: seq<Move>)
    requires RunFrom(l, s, ms).Some?
  {
    ms == [] || (Undisturbed(l, s, ms[..|ms| - 1])
                 && !CountsAwaited(RunFrom(l, s, ms[..|ms| - 1]).value, ms[|ms| - 1]))
  }

  /** The agreement holds in every state of the run. */
  ghost predicate AlwaysMatched(l: Limits, s: State, ms: seq<Move>)
    requires RunFrom(l, s, ms).Some?
  {
    Matched(RunFrom(l, s, ms).value) && (ms == [] || AlwaysMatched(l, s, ms[..|ms| - 1]))
  }

  // --- one move ---

  /** How the just-counted key of a stream follows its effects. */
  predicate FreshAccounted(st: Stream, e: Effect, st': Stream) {
    match e
    case Inc(k) => Fresh(st) == Waiting(st) == {} && Fresh(st') == {k}
    case Record(k, _) => Fresh(st) == {k}
    case _ => Fresh(st) <= Fresh(st')
  }

  lemma LocalFresh(l: Limits, st: Stream, c: Choice, last: bool)
    requires StreamOk(l, st) && Local(l, st, c, last).Some?
    ensures var (st', e) := Local(l, st, c, last).value;
            && FreshAccounted(st, e, st')
            && (e.Inc? <==> st.pc.Counting? && c.Go?)
            && (e.Inc? ==> e.key == Scoped(st, st.pc.key))
  {
    hide KeyOf, CanonicalKey, ValidBucket, SubsOk, DomainScopedKey;
  }

  lemma ExplainedKept(s: State, sid: Sid, st: Stream, e: Effect, s': State)
    requires Changes(s, sid, st, e, s') && RefsOk(s) && StoreOk(s)
    requires Explained(s) && Matched(s) && (e.Inc? ==> !IsWaiting(s, e.key))
    requires sid in s.streams && FreshAccounted(s.streams[sid], e, st)
    requires e.Dec? ==> e.key in s.shared.refs
    requires e.Remove? ==> Waiting(s.streams[sid]) == {e.key}
    ensures Explained(s')
  {
    hide Waiting, Fresh, RefsOk, RefCount, SumSince, Apply, Count;
    PositiveRefs(s);
    if e.Remove? {
      assert IsWaiting(s, e.key);
    }
    forall k ensures At(s'.shared.refs, k) == RefCount(s'.log, k) {
      assert At(s.shared.refs, k) == RefCount(s.log, k);
      CountExplained(s.shared, sid, s.log, e, k);
    }
    forall k, f | k in s'.shared.refs
      ensures Count(s'.shared.store, k, f) == SumSince(s'.log, k, f) % TWO64
    {
      assert At(s.shared.refs, k) == RefCount(s.log, k);
      SumExplained(s.shared, sid, s.log, e, k, f);
    }
  }

  lemma CountExplained(sh: Shared, sid: Sid, log: seq<Effect>, e: Effect, k: BucketKey)
    requires forall x :: x in sh.refs ==> sh.refs[x] > 0
    requires At(sh.refs, k) == RefCount(log, k)
    requires e.Dec? ==> e.key in sh.refs
    ensures At(Apply(sh, sid, e).refs, k) == RefCount(log + [e], k)
  {
    SumSinceSnoc(log, e, k, Allowed);
  }

  lemma SumExplained(sh: Shared, sid: Sid, log: seq<Effect>, e: Effect, k: BucketKey, f: Field)
    requires forall x :: x in sh.refs ==> sh.refs[x] > 0
    requires At(sh.refs, k) == RefCount(log, k)
    requires k in sh.refs ==> Count(sh.store, k, f) == SumSince(log, k, f) % TWO64
    requires e.Inc? && e.key !in sh.refs ==> e.key !in sh.store
    requires e.Remove? ==> e.key !in sh.refs
    requires k in Apply(sh, sid, e).refs
    ensures Count(Apply(sh, sid, e).store, k, f) == SumSince(log + [e], k, f) % TWO64
  {
    hide RefCount, SumSince, Count;
    SumSinceSnoc(log, e, k, f);
    if e.Record? {
      AddCounts(sh.store, e.key, e.usage, k, f);
      ModAdd(SumSince(log, k, f), e.usage.Get(f));
    } else if e.Remove? {
      AddCounts(sh.store, e.key, UsageState(0, 0), k, f);
    } else if e == Inc(k) && k !in sh.refs {
      NotStored(sh.store, k, f);
    }
  }

  lemma ModAdd(x: nat, u: uint64)
    ensures (x % TWO64 + u) % TWO64 == (x + u) % TWO64
  {}

  lemma NotStored(b: Buckets, k: BucketKey, f: Field)
    requires k !in b
    ensures Count(b, k, f) == 0
  {}

  lemma PositiveRefs(s: State)
    requires RefsOk(s)
    ensures forall k :: k in s.shared.refs ==> s.shared.refs[k] > 0
  {}

  lemma QuietWaitsForNothing(st: Stream)
    ensures Quiet(st) ==> Waiting(st) == {} && Fresh(st) == {}
  {}

  lemma MatchedKept(s: State, sid: Sid, st: Stream, e: Effect, s': State)
    requires Changes(s, sid, st, e, s') && Matched(s) && (e.Inc? ==> !IsWaiting(s, e.key))
    requires sid in s.streams && FreshAccounted(s.streams[sid], e, st)
    requires RemovalAccounted(s.streams[sid], e, st, IsLast(s.shared, s.streams[sid]))
    requires e.Dec? ==> IsLast(s.shared, s.streams[sid]) == (At(s.shared.refs, e.key) - 1 <= 0)
    ensures Matched(s')
  {
    hide Waiting, Fresh, IsLast;
    assert s'.streams[sid] == st;
    assert forall id :: id in s.streams && id != sid ==> s'.streams[id] == s.streams[id];
    forall k | k in s'.shared.refs ensures k in s'.shared.store || IsFresh(s', k) {
      assert k in Fresh(st) ==> IsFresh(s', k);
      if k in s.shared.refs && k !in s.shared.store {
        var id :| id in s.streams && k in Fresh(s.streams[id]);
        assert id != sid ==> IsFresh(s', k);
      }
      if e.Remove? {
        assert IsWaiting(s, e.key);
      }
    }
    forall k | IsWaiting(s', k) ensures k !in s'.shared.refs {
      var id :| id in s'.streams && k in Waiting(s'.streams[id]);
      if k in Waiting(s.streams[id]) {
        assert IsWaiting(s, k);
      }
    }
  }

  lemma NextKeepsMatched(l: Limits, s: State, m: Move)
    requires Inv(l, s) && Explained(s) && Matched(s)
    requires Next(l, s, m).Some? && !CountsAwaited(s, m)
    ensures var s' := Next(l, s, m).value;
            Explained(s') && Matched(s')
  {
    hide Local, StreamOk, RefsOk, StoreOk, GaugeOk, Explained, Matched, IsWaiting;
    var s', sid := Next(l, s, m).value, m.sid;
    if m.Open? {
      OpenKeepsMatched(l, s, sid);
    } else {
      var was := s.streams[sid];
      var last := IsLast(s.shared, was);
      var (st, e) := Local(l, was, m.choice, last).value;
      LocalFresh(l, was, m.choice, last);
      LocalRemoves(l, was, m.choice, last);
      DecAgrees(l, s.shared, was, m.choice);
      NextKeepsInv(l, s, m);
      ExplainedKept(s, sid, st, e, s');
      MatchedKept(s, sid, st, e, s');
    }
  }

  /** A move that does count an awaited key breaks the agreement at once. */
  lemma CountingAwaitedBreaks(l: Limits, s: State, m: Move)
    requires Inv(l, s) && Next(l, s, m).Some? && CountsAwaited(s, m)
    ensures !Matched(Next(l, s, m).value)
  {
    hide Waiting, StreamOk, RefsOk, StoreOk, GaugeOk, Scoped;
    var s', k := Next(l, s, m).value, Scoped(s.streams[m.sid], s.streams[m.sid].pc.key);
    var id :| id in s.streams && k in Waiting(s.streams[id]);
    CountingWaitsForNothing(s.streams[m.sid]);
    assert s'.streams[id] == s.streams[id];
    assert IsWaiting(s', k) && k in s'.shared.refs;
  }

  lemma CountingWaitsForNothing(st: Stream)
    ensures st.pc.Counting? ==> Waiting(st) == {}
  {}

  lemma OpenKeepsMatched(l: Limits, s: State, sid: Sid)
    requires Explained(s) && Matched(s) && sid !in s.streams
    ensures var s' := Next(l, s, Open(sid)).value;
            Explained(s') && Matched(s')
  {
    var s' := Next(l, s, Open(sid)).value;
    forall k, f
      ensures At(s'.shared.refs, k) == RefCount(s'.log, k) && SumSince(s'.log, k, f) == SumSince(s.log, k, f)
    {
      SumSinceSnoc(s.log, Join, k, f);
      assert At(s.shared.refs, k) == RefCount(s.log, k);
    }
    forall k ensures IsFresh(s', k) <==> IsFresh(s, k) {
      assert forall id :: id in s.streams ==> s'.streams[id] == s.streams[id];
    }
    forall k ensures IsWaiting(s', k) <==> IsWaiting(s, k) {
      assert forall id :: id in s.streams ==> s'.streams[id] == s.streams[id];
    }
  }

  // --- every run ---

  lemma {:induction false} UndisturbedRunKeeps(l: Limits, s: State, ms: seq<Move>)
    requires Inv(l, s) && Explained(s) && Matched(s)
    requires RunFrom(l, s, ms).Some? && Undisturbed(l, s, ms)
    ensures var t := RunFrom(l, s, ms).value;
            Inv(l, t) && Explained(t) && Matched(t)
  {
    hide Inv, Explained, Matched, CountsAwaited;
    if ms == [] {
    } else {
      var prev, m := ms[..|ms| - 1], ms[|ms| - 1];
      UndisturbedRunKeeps(l, s, prev);
      NextKeepsInv(l, RunFrom(l, s, prev).value, m);
      NextKeepsMatched(l, RunFrom(l, s, prev).value, m);
    }
  }

  /**
    In every state of a run each referenced key is stored, or counted and about to be recorded, and no
    stream is about to remove a referenced key, exactly if no move of the run counts an awaited key.
  */
  lemma {:induction false} MatchedIffUndisturbed(l: Limits, ms: seq<Move>)
    requires Run(l, ms).Some?
    ensures AlwaysMatched(l, INITIAL, ms) <==> Undisturbed(l, INITIAL, ms)
  {
    hide Inv, Explained, CountsAwaited, Matched;
    InitiallyMatched();
    if ms == [] {
    } else {
      var prev, m := ms[..|ms| - 1], ms[|ms| - 1];
      MatchedIffUndisturbed(l, prev);
      RunKeepsInv(l, prev);
      if Undisturbed(l, INITIAL, ms) {
        RunKeepsInv(l, []);
        UndisturbedRunKeeps(l, INITIAL, ms);
      } else if Undisturbed(l, INITIAL, prev) {
        CountingAwaitedBreaks(l, Run(l, prev).value, m);
      }
    }
  }

  lemma InitiallyMatched()
    ensures Explained(INITIAL) && Matched(INITIAL)
  {}

  /**
    Between messages, the store holds exactly the referenced buckets, and each counter is, modulo
    2^64, the usage reported for its scoped key since its count last rose from zero.
  */
  ghost predicate Settled(s: State) {
    && s.shared.store.Keys == s.shared.refs.Keys
    && forall k, f :: k in s.shared.refs ==> Count(s.shared.store, k, f) == SumSince(s.log, k, f) % TWO64
  }

  lemma QuietIsSettled(s: State)
    requires StoreOk(s) && Explained(s) && Matched(s)
    requires forall sid :: sid in s.streams ==> Quiet(s.streams[sid])
    ensures Settled(s)
  {
    hide Waiting, Fresh;
    forall sid | sid in s.streams ensures Waiting(s.streams[sid]) == Fresh(s.streams[sid]) == {} {
      QuietWaitsForNothing(s.streams[sid]);
    }
  }

  /** Whatever overlaps: if no awaited key was counted, then the store is settled whenever all streams are quiet. */
  lemma UndisturbedRunIsSettled(l: Limits, ms: seq<Move>)
    requires Run(l, ms).Some? && Undisturbed(l, INITIAL, ms)
    requires var s := Run(l, ms).value; forall sid :: sid in s.streams ==> Quiet(s.streams[sid])
    ensures Settled(Run(l, ms).value)
  {
    hide RunFrom, RefsOk, GaugeOk, StreamOk, Undisturbed;
    EmptyRun(l);
    RunKeepsInv(l, []);
    InitiallyMatched();
    UndisturbedRunKeeps(l, INITIAL, ms);
    QuietIsSettled(Run(l, ms).value);
  }

  lemma EmptyRun(l: Limits)
    ensures Run(l, []) == Some(INITIAL)
  {}

  // ---------------------------------------------------------------------------------------------
  // Serial runs: a stream moves only while every other stream is between messages
  // ---------------------------------------------------------------------------------------------

  /** Every other stream is between messages. */
  ghost predicate Alone(s: State, sid: Sid) {
    forall id :: id in s.streams && id != sid ==> Quiet(s.streams[id])
  }

  ghost predicate SerialRun(l: Limits, s: State, ms: seq<Move>)
    requires RunFrom(l, s, ms).Some?
  {
    ms == [] || (SerialRun(l, s, ms[..|ms| - 1]) && Alone(RunFrom(l, s, ms[..|ms| - 1]).value, ms[|ms| - 1].sid))
  }

  lemma {:induction false} SerialIsUndisturbed(l: Limits, s: State, ms: seq<Move>)
    requires RunFrom(l, s, ms).Some? && SerialRun(l, s, ms)
    ensures Undisturbed(l, s, ms)
  {
    if ms == [] {
    } else {
      var prev, m := ms[..|ms| - 1], ms[|ms| - 1];
      SerialIsUndisturbed(l, s, prev);
      AloneCountsNothingAwaited(RunFrom(l, s, prev).value, m);
    }
  }

  lemma AloneCountsNothingAwaited(s: State, m: Move)
    requires Alone(s, m.sid)
    ensures !CountsAwaited(s, m)
  {
    hide Scoped;
    forall id | id in s.streams ensures Quiet(s.streams[id]) ==> Waiting(s.streams[id]) == {} {
      QuietWaitsForNothing(s.streams[id]);
    }
  }

  /** With atomic messages and cleanups the store is settled between them. */
  lemma SerialRunIsSettled(l: Limits, ms: seq<Move>)
    requires Run(l, ms).Some? && SerialRun(l, INITIAL, ms)
    requires var s := Run(l, ms).value; forall sid :: sid in s.streams ==> Quiet(s.streams[sid])
    ensures Settled(Run(l, ms).value)
  {
    hide RunFrom, SerialRun, Undisturbed, Settled;
    SerialIsUndisturbed(l, INITIAL, ms);
    UndisturbedRunIsSettled(l, ms);
  }
}
