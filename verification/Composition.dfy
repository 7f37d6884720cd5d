/**
  The stream protocol on top of the Redis store. The server ignores whether a store call succeeds, so the
  calls of an instance are those of its protocol run, whatever becomes of them.
*/
module Composition {
  import opened Keys
  import opened Memory
  import P = Protocol
  import I = Invariants
  import R = Redis

  /** The store calls a run has made. */
  function StoreCalls(log: seq<P.Effect>): seq<P.Effect> {
    if log == [] then []
    else
      var e := log[|log| - 1];
      StoreCalls(log[..|log| - 1]) + if e.Record? || e.Remove? then [e] else []
  }

  /** The store calls that reached the cluster through one instance. */
  function CallsOf(es: seq<R.Event>, i: nat): seq<P.Effect> {
    if es == [] then []
    else CallsOf(es[..|es| - 1], i) + CallOf(es[|es| - 1], i)
  }

  function CallOf(e: R.Event, i: nat): seq<P.Effect> {
    match e
    case Recorded(j, k, u, _, _, _) => if j == i then [P.Record(k, u)] else []
    case Deleted(j, k, _, _, _) => if j == i then [P.Remove(k)] else []
    case Expired(_) => []
  }

  /** An in-memory store fed some calls. */
  function Fed(calls: seq<P.Effect>): Buckets {
    if calls == [] then map[] else FedOne(Fed(calls[..|calls| - 1]), calls[|calls| - 1])
  }

  function FedOne(b: Buckets, e: P.Effect): Buckets {
    if e.Record? then Add(b, e.key, e.usage) else if e.Remove? then Remove(b, e.key) else b
  }

  lemma FedSnoc(calls: seq<P.Effect>, e: P.Effect)
    ensures Fed(calls + [e]) == FedOne(Fed(calls), e)
  {
    assert (calls + [e])[..|calls + [e]| - 1] == calls;
  }

  /** The in-memory store of every interleaving is what its calls make of an empty one. */
  lemma {:induction false} StoreIsFed(l: P.Limits, ms: seq<P.Move>)
    requires P.Run(l, ms).Some?
    ensures var s := P.Run(l, ms).value;
            s.shared.store == Fed(StoreCalls(s.log))
  {
    hide P.Local, Fed, FedOne;
    if ms == [] {
      assert StoreCalls([]) == [] && Fed([]) == map[] by { FedNothing(); }
    } else {
      var prev := P.Run(l, ms[..|ms| - 1]).value;
      StoreIsFed(l, ms[..|ms| - 1]);
      var s := P.Run(l, ms).value;
      var e := s.log[|s.log| - 1];
      assert s.log == prev.log + [e] && s.log[..|s.log| - 1] == prev.log;
      FedSnoc(StoreCalls(prev.log), e);
      FedByApply(prev.shared, ms[|ms| - 1].sid, e);
      assert !e.Record? && !e.Remove? ==> StoreCalls(s.log) == StoreCalls(prev.log);
    }
  }

  lemma FedNothing()
    ensures Fed([]) == map[]
  {}

  lemma FedByApply(sh: P.Shared, sid: P.Sid, e: P.Effect)
    ensures P.Apply(sh, sid, e).store == FedOne(sh.store, e)
    ensures !e.Record? && !e.Remove? ==> FedOne(sh.store, e) == sh.store
  {}

  /** The calls of instance `i` in the cluster are those of the protocol run. */
  ghost predicate Performs(l: P.Limits, ms: seq<P.Move>, es: seq<R.Event>, i: nat) {
    P.Run(l, ms).Some? && CallsOf(es, i) == StoreCalls(P.Run(l, ms).value.log)
  }

  // ---------------------------------------------------------------------------------------------
  // One instance
  // ---------------------------------------------------------------------------------------------

  lemma {:induction false} OneInstanceIsFed(es: seq<R.Event>)
    requires forall i :: 0 <= i < |es| ==> es[i].Expired? || es[i].node == 0
    ensures R.MemoryRun(es) == Fed(CallsOf(es, 0))
  {
    if es == [] {
    } else {
      var prev, e := es[..|es| - 1], es[|es| - 1];
      OneInstanceIsFed(prev);
      if e.Expired? {
        assert CallsOf(es, 0) == CallsOf(prev, 0);
      } else {
        FedSnoc(CallsOf(prev, 0), CallOf(e, 0)[0]);
      }
    }
  }

  /**
    At every moment of every faithful run of a single instance, Redis and the fallback together hold of
    each counter what the in-memory store would.
  */
  lemma InstanceHoldsStore(l: P.Limits, ms: seq<P.Move>, c: R.Config, s: R.State, es: seq<R.Event>, p: R.Cell)
    requires R.Start(s) && |s.nodes| == 1 && R.EnabledAll(s, es) && Performs(l, ms, es, 0)
    requires R.FaithfulRun(c, s, es, p) && R.Totals(c, s, es, p).reported < R.TWO63
    ensures R.Held(R.Run(c, s, es), p) == Count(P.Run(l, ms).value.shared.store, p.0, p.1)
  {
    hide R.FaithfulRun, R.Totals, R.Run, P.Run;
    StoreIsFed(l, ms);
    OneInstanceIsFed(es);
    R.RefinesMemory(c, s, es, p);
  }

  // ---------------------------------------------------------------------------------------------
  // Any number of instances
  // ---------------------------------------------------------------------------------------------

  /** Every stream of the run has ended. */
  ghost predicate Ended(l: P.Limits, ms: seq<P.Move>) {
    && P.Run(l, ms).Some?
    && var s := P.Run(l, ms).value;
       forall sid :: sid in s.streams ==> s.streams[sid].pc.Done?
  }

  /** What the calls of all instances together leave in a store, those of some instance alone leave too. */
  lemma {:induction false} LeftBySomeInstance(es: seq<R.Event>, n: nat, k: BucketKey) returns (i: nat)
    requires forall j :: 0 <= j < |es| ==> es[j].Expired? || es[j].node < n
    requires k in R.MemoryRun(es)
    ensures i < n && k in Fed(CallsOf(es, i))
  {
    var prev, e := es[..|es| - 1], es[|es| - 1];
    if !e.Expired? && e.key == k {
      i := e.node;
      FedSnoc(CallsOf(prev, i), CallOf(e, i)[0]);
    } else {
      i := LeftBySomeInstance(prev, n, k);
      if CallOf(e, i) == [] {
        assert CallsOf(es, i) == CallsOf(prev, i);
      } else {
        FedSnoc(CallsOf(prev, i), CallOf(e, i)[0]);
      }
    }
  }

  /**
    Once every stream of every instance has ended, by whatever path and in whatever interleaving, the
    cluster holds nothing of a counter on which its run was faithful.
  */
  lemma ClusterLeavesNothing(l: P.Limits, runs: seq<seq<P.Move>>, c: R.Config, s: R.State, es: seq<R.Event>, p: R.Cell)
    requires R.Start(s) && |runs| == |s.nodes| && R.EnabledAll(s, es)
    requires forall i :: 0 <= i < |runs| ==> Performs(l, runs[i], es, i) && Ended(l, runs[i])
    requires R.FaithfulRun(c, s, es, p) && R.Totals(c, s, es, p).reported < R.TWO63
    ensures R.Held(R.Run(c, s, es), p) == 0
  {
    hide R.FaithfulRun, R.Totals, R.Run, P.Run;
    R.RefinesMemory(c, s, es, p);
    forall i | 0 <= i < |runs| ensures Fed(CallsOf(es, i)) == map[] {
      StoreIsFed(l, runs[i]);
      I.EndedLeavesNothing(l, runs[i]);
    }
    if p.0 in R.MemoryRun(es) {
      var i := LeftBySomeInstance(es, |runs|, p.0);
    }
  }
}
