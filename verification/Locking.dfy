/**
  Lock discipline of the server (internal/server/server.go, internal/metrics/domain.go,
  internal/storage/storage.go). Threads are arbitrary sequences of the code's critical sections.
*/
module Locking {
  import opened Keys

  datatype Lock =
    | ServerMu
    | StreamMu(id: nat)
    | ClassifierMu        // a reader-writer lock
    | SendMu(id: nat)
    | StoreMu             // a reader-writer lock

  /** The one order in which locks are taken while others are held. */
  function Rank(l: Lock): nat {
    match l
    case ServerMu => 0
    case StreamMu(_) => 1
    case ClassifierMu => 2
    case SendMu(_) => 3
    case StoreMu => 4
  }

  datatype Op = Acquire(l: Lock, shared: bool) | Release(l: Lock)

  /** The locks a thread holds, with `true` for a read lock, and what it will do. */
  datatype Thread = Thread(held: map<Lock, bool>, todo: seq<Op>)

  type Tid = nat
  type State = map<Tid, Thread>

  // ---------------------------------------------------------------------------------------------
  // The critical sections of the code
  // ---------------------------------------------------------------------------------------------

  datatype Section =
    | ServerOnly                                    // open, count, uncount, leave, push snapshot
    | StreamOnly(id: nat)                           // subscription and abandon checks, push of one stream
    | Bind(id: nat, asks: bool, admits: bool)       // domain binding, asking the classifier if unbound
    | StoreWrite                                    // RecordUsage and RemoveBucket
    | StoreRead                                     // the admin listing
    | SendOne(id: nat)                              // replies and pushes
    | Stats(ids: seq<nat>)                          // every stream in turn, under the server lock

  function Ops(s: Section): seq<Op> {
    match s
    case ServerOnly => [Acquire(ServerMu, false), Release(ServerMu)]
    case StreamOnly(i) => [Acquire(StreamMu(i), false), Release(StreamMu(i))]
    case Bind(i, asks, admits) =>
      [Acquire(StreamMu(i), false)]
      + (if asks then [Acquire(ClassifierMu, true), Release(ClassifierMu)] else [])
      + (if asks && admits then [Acquire(ClassifierMu, false), Release(ClassifierMu)] else [])
      + [Release(StreamMu(i))]
    case StoreWrite => [Acquire(StoreMu, false), Release(StoreMu)]
    case StoreRead => [Acquire(StoreMu, true), Release(StoreMu)]
    case SendOne(i) => [Acquire(SendMu(i), false), Release(SendMu(i))]
    case Stats(ids) => [Acquire(ServerMu, false)] + StatsOps(ids) + [Release(ServerMu)]
  }

  function StatsOps(ids: seq<nat>): seq<Op> {
    if ids == [] then [] else [Acquire(StreamMu(ids[0]), false), Release(StreamMu(ids[0]))] + StatsOps(ids[1..])
  }

  function Program(ss: seq<Section>): seq<Op> {
    if ss == [] then [] else Ops(ss[0]) + Program(ss[1..])
  }

  /** Locks are taken in strictly rising rank, released only when held, and all released at the end. */
  predicate Ordered(held: map<Lock, bool>, todo: seq<Op>)
    decreases todo
  {
    if todo == [] then held == map[]
    else
      match todo[0]
      case Acquire(l, shared) => (forall h :: h in held ==> Rank(h) < Rank(l)) && Ordered(held[l := shared], todo[1..])
      case Release(l) => l in held && Ordered(held - {l}, todo[1..])
  }

  /** Taking and releasing one lock of a higher rank. */
  lemma OrderedPair(held: map<Lock, bool>, l: Lock, shared: bool, rest: seq<Op>)
    requires (forall h :: h in held ==> Rank(h) < Rank(l)) && Ordered(held, rest)
    ensures Ordered(held, [Acquire(l, shared), Release(l)] + rest)
  {
    var ops := [Acquire(l, shared), Release(l)] + rest;
    assert ops[1..] == [Release(l)] + rest && ops[1..][1..] == rest;
    assert l !in held;
    assert held[l := shared] - {l} == held;
  }

  lemma {:induction false} OrderedStats(held: map<Lock, bool>, ids: seq<nat>, rest: seq<Op>)
    requires held.Keys == {ServerMu} && Ordered(held, rest)
    ensures Ordered(held, StatsOps(ids) + rest)
  {
    if ids == [] {
      assert StatsOps(ids) + rest == rest;
    } else {
      OrderedStats(held, ids[1..], rest);
      OrderedPair(held, StreamMu(ids[0]), false, StatsOps(ids[1..]) + rest);
      assert StatsOps(ids) + rest
          == [Acquire(StreamMu(ids[0]), false), Release(StreamMu(ids[0]))] + (StatsOps(ids[1..]) + rest);
    }
  }

  /** Taking and releasing the outermost lock. */
  lemma OrderedOuter(l: Lock, body: seq<Op>, rest: seq<Op>)
    ensures Ordered(map[], rest) ==> Ordered(map[l := false], [Release(l)] + rest)
    ensures Ordered(map[l := false], body) ==> Ordered(map[], [Acquire(l, false)] + body)
  {
    assert ([Release(l)] + rest)[1..] == rest && ([Acquire(l, false)] + body)[1..] == body;
    assert map[l := false] - {l} == map[] && map[][l := false] == map[l := false];
  }

  /** An optional use of the classifier lock. */
  lemma OrderedAsk(held: map<Lock, bool>, asks: bool, shared: bool, rest: seq<Op>)
    requires (forall h :: h in held ==> Rank(h) < Rank(ClassifierMu)) && Ordered(held, rest)
    ensures Ordered(held, (if asks then [Acquire(ClassifierMu, shared), Release(ClassifierMu)] else []) + rest)
  {
    if asks {
      OrderedPair(held, ClassifierMu, shared, rest);
    } else {
      assert [] + rest == rest;
    }
  }

  lemma BindOps(i: nat, asks: bool, admits: bool, rest: seq<Op>)
    ensures Ops(Bind(i, asks, admits)) + rest
         == [Acquire(StreamMu(i), false)]
            + ((if asks then [Acquire(ClassifierMu, true), Release(ClassifierMu)] else [])
               + ((if asks && admits then [Acquire(ClassifierMu, false), Release(ClassifierMu)] else [])
                  + ([Release(StreamMu(i))] + rest)))
  {}

  lemma OrderedBind(i: nat, asks: bool, admits: bool, rest: seq<Op>)
    requires Ordered(map[], rest)
    ensures Ordered(map[], Ops(Bind(i, asks, admits)) + rest)
  {
    hide Ordered, Ops;
    var held: map<Lock, bool> := map[StreamMu(i) := false];
    var tail := [Release(StreamMu(i))] + rest;
    OrderedOuter(StreamMu(i), tail, rest);
    OrderedAsk(held, asks && admits, false, tail);
    var write := (if asks && admits then [Acquire(ClassifierMu, false), Release(ClassifierMu)] else []) + tail;
    OrderedAsk(held, asks, true, write);
    var read := (if asks then [Acquire(ClassifierMu, true), Release(ClassifierMu)] else []) + write;
    OrderedOuter(StreamMu(i), read, rest);
    BindOps(i, asks, admits, rest);
  }

  /** A section may be put in front of any ordered program. */
  lemma OrderedSection(s: Section, rest: seq<Op>)
    requires Ordered(map[], rest)
    ensures Ordered(map[], Ops(s) + rest)
  {
    match s
    case ServerOnly => OrderedPair(map[], ServerMu, false, rest);
    case StreamOnly(i) => OrderedPair(map[], StreamMu(i), false, rest);
    case StoreWrite => OrderedPair(map[], StoreMu, false, rest);
    case StoreRead => OrderedPair(map[], StoreMu, true, rest);
    case SendOne(i) => OrderedPair(map[], SendMu(i), false, rest);
    case Bind(i, asks, admits) => OrderedBind(i, asks, admits, rest);
    case Stats(ids) =>
      var tail := [Release(ServerMu)] + rest;
      OrderedOuter(ServerMu, StatsOps(ids) + tail, rest);
      OrderedStats(map[ServerMu := false], ids, tail);
      OrderedOuter(ServerMu, StatsOps(ids) + tail, rest);
      assert Ops(s) + rest == [Acquire(ServerMu, false)] + (StatsOps(ids) + tail);
  }

  /** Every sequence of the code's critical sections respects the order. */
  lemma {:induction false} ProgramsAreOrdered(ss: seq<Section>)
    ensures Ordered(map[], Program(ss))
  {
    if ss == [] {
    } else {
      ProgramsAreOrdered(ss[1..]);
      OrderedSection(ss[0], Program(ss[1..]));
    }
  }

  // ---------------------------------------------------------------------------------------------
  // Running threads
  // ---------------------------------------------------------------------------------------------

  predicate WantsToWrite(th: Thread, l: Lock) {
    th.todo != [] && th.todo[0] == Acquire(l, false)
  }

  /** A lock waits for its holders; a read lock waits only for a writer, but also for a waiting one. */
  ghost predicate Blocked(s: State, t: Tid, l: Lock, shared: bool) {
    exists u :: u in s && u != t &&
      ((l in s[u].held && (!shared || !s[u].held[l])) || (shared && WantsToWrite(s[u], l)))
  }

  ghost predicate CanStep(s: State, t: Tid) {
    && t in s && s[t].todo != []
    && (s[t].todo[0].Acquire? ==> !Blocked(s, t, s[t].todo[0].l, s[t].todo[0].shared))
  }

  function Step(s: State, t: Tid): State
    requires t in s && s[t].todo != []
  {
    var th := s[t];
    s[t := Thread(match th.todo[0]
                  case Acquire(l, shared) => th.held[l := shared]
                  case Release(l) => th.held - {l},
                  th.todo[1..])]
  }

  /** All threads run ordered programs, and a write lock has one holder. */
  ghost predicate Inv(s: State) {
    && (forall t :: t in s ==> Ordered(s[t].held, s[t].todo))
    && forall t, u, l :: t in s && u in s && t != u && l in s[t].held && l in s[u].held ==> s[t].held[l] && s[u].held[l]
  }

  lemma StepKeepsInv(s: State, t: Tid)
    requires Inv(s) && CanStep(s, t)
    ensures Inv(Step(s, t))
  {
    var s', th := Step(s, t), s[t];
    forall u, l | u in s && u != t && l in s'[t].held && l in s'[u].held
      ensures s'[t].held[l] && s'[u].held[l]
    {
      if th.todo[0].Acquire? && th.todo[0].l == l {
        assert !Blocked(s, t, l, th.todo[0].shared);
      } else {
        assert l in th.held;
      }
    }
  }

  predicate Unfinished(s: State, t: Tid) {
    t in s && s[t].todo != []
  }

  predicate Waits(s: State, t: Tid) {
    Unfinished(s, t) && s[t].todo[0].Acquire?
  }

  function WantedRank(s: State, t: Tid): nat
    requires Waits(s, t)
  {
    Rank(s[t].todo[0].l)
  }

  /** Among threads that all wait for a lock, one waits for a lock of the highest rank. */
  lemma {:induction false} HighestWaiting(s: State, ts: set<Tid>) returns (top: Tid)
    requires ts != {} && forall t :: t in ts ==> Waits(s, t)
    ensures top in ts && Waits(s, top)
    ensures forall t :: t in ts ==> Waits(s, t) && WantedRank(s, t) <= WantedRank(s, top)
    decreases ts
  {
    top :| top in ts;
    if ts != {top} {
      var other := HighestWaiting(s, ts - {top});
      if WantedRank(s, other) > WantedRank(s, top) {
        top := other;
      }
    }
  }

  /** A thread that waits for a lock held by another is outranked by what that one waits for. */
  lemma HolderWaitsHigher(s: State, u: Tid, l: Lock)
    requires Inv(s) && u in s && l in s[u].held
    ensures Unfinished(s, u)
    ensures s[u].todo[0].Acquire? ==> Rank(s[u].todo[0].l) > Rank(l)
  {
    assert Ordered(s[u].held, s[u].todo);
  }

  /** A thread waiting for a lock of the highest rank can take it, or a writer ahead of it can. */
  lemma HighestCanStep(s: State, top: Tid)
    requires Inv(s) && Waits(s, top)
    requires forall t :: Unfinished(s, t) ==> Waits(s, t) && WantedRank(s, t) <= WantedRank(s, top)
    ensures exists u :: CanStep(s, u)
  {
    hide Ordered;
    var l := s[top].todo[0].l;
    forall u | u in s ensures l !in s[u].held {
      if l in s[u].held {
        HolderWaitsHigher(s, u, l);
      }
    }
    if w :| w in s && WantsToWrite(s[w], l) {
      assert CanStep(s, w);
    } else {
      assert CanStep(s, top);
    }
  }

  /** Deadlock freedom: while any thread is unfinished, some thread can step. */
  lemma NoDeadlock(s: State, t: Tid)
    requires Inv(s) && Unfinished(s, t)
    ensures exists u :: CanStep(s, u)
  {
    hide Inv;
    if r :| Unfinished(s, r) && s[r].todo[0].Release? {
      assert CanStep(s, r);
    } else {
      var waiting := set u | u in s && Unfinished(s, u);
      assert t in waiting;
      var top := HighestWaiting(s, waiting);
      HighestCanStep(s, top);
    }
  }

  // --- runs ---

  /** Every thread is about to run some sequence of the code's critical sections. */
  ghost predicate Start(s: State) {
    forall t :: t in s ==> s[t].held == map[] && exists ss :: s[t].todo == Program(ss)
  }

  /** The state after the named threads take one step each, in that order, if each of them could. */
  ghost function RunOf(s0: State, ts: seq<Tid>): Option<State> {
    if ts == [] then Some(s0)
    else
      var prev, t := RunOf(s0, ts[..|ts| - 1]), ts[|ts| - 1];
      if prev.Some? && CanStep(prev.value, t) then Some(Step(prev.value, t)) else None
  }

  /** In every reachable state of any number of threads, an unfinished thread implies that some thread can step. */
  lemma {:induction false} ReachableNeverDeadlocks(s0: State, ts: seq<Tid>)
    requires Start(s0) && RunOf(s0, ts).Some?
    ensures var s := RunOf(s0, ts).value;
            Inv(s) && ((exists t :: Unfinished(s, t)) ==> exists u :: CanStep(s, u))
  {
    var s := RunOf(s0, ts).value;
    if ts == [] {
      forall t | t in s0 ensures Ordered(s0[t].held, s0[t].todo) {
        var ss :| s0[t].todo == Program(ss);
        ProgramsAreOrdered(ss);
      }
    } else {
      ReachableNeverDeadlocks(s0, ts[..|ts| - 1]);
      StepKeepsInv(RunOf(s0, ts[..|ts| - 1]).value, ts[|ts| - 1]);
    }
    if t :| Unfinished(s, t) {
      NoDeadlock(s, t);
    }
  }
}
