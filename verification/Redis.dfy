/**
  The Redis-backed store as a transition system over values (internal/storage/redis.go): any number
  of server instances, each with its own breaker and in-memory fallback, share one Redis.

  A store call is one atomic step. Whether Redis answered, and which commands of a failed pipeline it
  had already carried out, is part of the event, so every outcome is covered.
*/
module Redis {
  import opened Keys
  import opened Memory

  const TWO63: int := 0x8000_0000_0000_0000

  type int64 = x: int | -TWO63 <= x < TWO63

  /** The Go conversion int64(x). */
  function ToInt64(x: uint64): int64 {
    if x < TWO63 then x else x - TWO64
  }

  // ---------------------------------------------------------------------------------------------
  // Redis
  // ---------------------------------------------------------------------------------------------

  /** A counter: a hash and one of its fields. */
  type Cell = (BucketKey, Field)

  /** The integer fields of all hashes. */
  type Hashes = map<Cell, int64>

  function Value(h: Hashes, p: Cell): int64 {
    if p in h then h[p] else 0
  }

  predicate InRange(x: int) {
    -TWO63 <= x < TWO63
  }

  /** Redis answered, or the call failed after Redis had carried out some of its commands. */
  datatype Net = Up | Down(applied: set<Cell>)

  predicate Arrives(net: Net, p: Cell) {
    net.Up? || p in net.applied
  }

  datatype Command = HIncrBy(cell: Cell, delta: int64) | Expire(key: BucketKey)

  /** HINCRBY fails and changes nothing if the sum leaves the int64 range. */
  function ExecOne(h: Hashes, cmd: Command, net: Net): Hashes {
    if cmd.HIncrBy? && Arrives(net, cmd.cell) && InRange(Value(h, cmd.cell) + cmd.delta)
    then h[cmd.cell := Value(h, cmd.cell) + cmd.delta]
    else h
  }

  predicate OneFails(h: Hashes, cmd: Command) {
    cmd.HIncrBy? && !InRange(Value(h, cmd.cell) + cmd.delta)
  }

  /** A pipeline is not a transaction: each command succeeds or fails on its own. */
  function Exec(h: Hashes, cmds: seq<Command>, net: Net): Hashes
    decreases cmds
  {
    if cmds == [] then h else Exec(ExecOne(h, cmds[0], net), cmds[1..], net)
  }

  predicate SomeFails(h: Hashes, cmds: seq<Command>, net: Net)
    decreases cmds
  {
    cmds != [] && (OneFails(h, cmds[0]) || SomeFails(ExecOne(h, cmds[0], net), cmds[1..], net))
  }

  /** DEL of a hash. */
  function Del(h: Hashes, k: BucketKey): Hashes {
    h - {(k, Allowed), (k, Denied)}
  }

  // ---------------------------------------------------------------------------------------------
  // Pipelines of increments, cell by cell
  // ---------------------------------------------------------------------------------------------

  /** What a pipeline adds to each cell it touches. */
  type Amounts = map<Cell, uint64>

  predicate Effective(h: Hashes, am: Amounts, net: Net, p: Cell) {
    p in am && Arrives(net, p) && InRange(Value(h, p) + ToInt64(am[p]))
  }

  function Bump(h: Hashes, am: Amounts, net: Net): Hashes {
    map p | p in h.Keys + am.Keys && (p in h || Effective(h, am, net, p)) ::
      if Effective(h, am, net, p) then Value(h, p) + ToInt64(am[p]) else Value(h, p)
  }

  predicate BumpOk(h: Hashes, am: Amounts, net: Net) {
    net.Up? && forall p :: p in am ==> InRange(Value(h, p) + ToInt64(am[p]))
  }

  /** The commands increment each cell of `am` once, by its amount, and no other cell. */
  predicate Carries(cmds: seq<Command>, am: Amounts) {
    if cmds == [] then am == map[]
    else if cmds[0].Expire? then Carries(cmds[1..], am)
    else
      var p := cmds[0].cell;
      p in am && cmds[0].delta == ToInt64(am[p]) && Carries(cmds[1..], am - {p})
  }

  /** Commands may come in any order: only the amounts they carry matter. */
  lemma {:induction false} ExecIsBump(h: Hashes, cmds: seq<Command>, am: Amounts, net: Net)
    requires Carries(cmds, am)
    ensures Exec(h, cmds, net) == Bump(h, am, net)
    ensures net.Up? ==> (BumpOk(h, am, net) <==> !SomeFails(h, cmds, net))
    decreases cmds
  {
    if cmds == [] {
      assert Bump(h, am, net) == h;
    } else if cmds[0].Expire? {
      ExecIsBump(h, cmds[1..], am, net);
    } else {
      var p := cmds[0].cell;
      var h1 := ExecOne(h, cmds[0], net);
      ExecIsBump(h1, cmds[1..], am - {p}, net);
      BumpFirst(h, p, am, net);
    }
  }

  lemma BumpFirst(h: Hashes, p: Cell, am: Amounts, net: Net)
    requires p in am
    ensures var h1 := ExecOne(h, HIncrBy(p, ToInt64(am[p])), net);
            && Bump(h1, am - {p}, net) == Bump(h, am, net)
            && (net.Up? ==> (BumpOk(h, am, net) <==>
                 InRange(Value(h, p) + ToInt64(am[p])) && BumpOk(h1, am - {p}, net)))
  {
    var h1 := ExecOne(h, HIncrBy(p, ToInt64(am[p])), net);
    var rest := am - {p};
    forall q
      ensures q in Bump(h1, rest, net) <==> q in Bump(h, am, net)
      ensures Value(Bump(h1, rest, net), q) == Value(Bump(h, am, net), q)
    {
      BumpAt(h1, rest, net, q);
      BumpAt(h, am, net, q);
    }
    MapsAgree(Bump(h1, rest, net), Bump(h, am, net));
    assert forall q :: q in rest ==> Value(h1, q) == Value(h, q) && am[q] == rest[q];
  }

  lemma MapsAgree(a: Hashes, b: Hashes)
    requires forall q :: (q in a <==> q in b) && Value(a, q) == Value(b, q)
    ensures a == b
  {
    assert forall q :: q in a ==> Value(a, q) == a[q] && Value(b, q) == b[q];
  }

  /** A pipeline seen at one cell. */
  lemma BumpAt(h: Hashes, am: Amounts, net: Net, p: Cell)
    ensures p in Bump(h, am, net) <==> p in h || Effective(h, am, net, p)
    ensures Value(Bump(h, am, net), p)
         == Value(h, p) + if Effective(h, am, net, p) then ToInt64(am[p]) else 0
  {}

  /** The amounts of one usage report, and of a whole fallback (zero counters are not sent). */
  function OneReport(k: BucketKey, u: UsageState): Amounts {
    map[(k, Allowed) := u.allowed, (k, Denied) := u.denied]
  }

  function NonZero(b: Buckets): Amounts {
    map k, f | k in b && f in {Allowed, Denied} && b[k].Get(f) > 0 :: (k, f) := b[k].Get(f)
  }

  lemma NonZeroAt(b: Buckets, p: Cell)
    ensures p in NonZero(b) <==> Count(b, p.0, p.1) > 0
    ensures p in NonZero(b) ==> NonZero(b)[p] == Count(b, p.0, p.1)
  {}

  lemma NonZeroIs(b: Buckets, am: Amounts)
    requires forall p :: (p in am <==> Count(b, p.0, p.1) > 0) && (p in am ==> am[p] == Count(b, p.0, p.1))
    ensures NonZero(b) == am
  {
    hide NonZero;
    forall p
      ensures p in NonZero(b) <==> p in am
      ensures p in am ==> NonZero(b)[p] == am[p]
    {
      NonZeroAt(b, p);
    }
  }

  // ---------------------------------------------------------------------------------------------
  // One instance: breaker, fallback, and the two store calls
  // ---------------------------------------------------------------------------------------------

  datatype Config = Config(maxFallbackKeys: nat, retryInterval: int)

  datatype Node = Node(fallback: Buckets, tripped: bool, lastAttempt: int)

  const FRESH := Node(map[], false, 0)

  /** The call talks to Redis: the breaker is closed, or open and due for a retry. */
  predicate Attempts(c: Config, n: Node, now: int) {
    !n.tripped || now - n.lastAttempt >= c.retryInterval
  }

  /** A report that would add a key to a full fallback is dropped. */
  predicate Drops(c: Config, n: Node, k: BucketKey) {
    n.tripped && c.maxFallbackKeys > 0 && |n.fallback| >= c.maxFallbackKeys && k !in n.fallback
  }

  /** Flush the fallback to Redis, clear it whatever happened, close the breaker. */
  function Recover(h: Hashes, n: Node, flush: Net): (Hashes, Node) {
    if n.tripped then (Bump(h, NonZero(n.fallback), flush), n.(fallback := map[], tripped := false)) else (h, n)
  }

  /** Redis did not take the call: open the breaker if it was closed. */
  function Trip(n: Node, now: int): Node {
    if n.tripped then n else n.(tripped := true, lastAttempt := now)
  }

  function Record(c: Config, h: Hashes, n: Node, k: BucketKey, u: UsageState, now: int, pipe: Net, flush: Net)
    : (Hashes, Node)
  {
    var am := OneReport(k, u);
    var h1 := if Attempts(c, n, now) then Bump(h, am, pipe) else h;
    if Attempts(c, n, now) && BumpOk(h, am, pipe) then Recover(h1, n, flush)
    else (h1, Trip(n, now).(fallback := if Drops(c, n, k) then n.fallback else Add(n.fallback, k, u)))
  }

  /** DEL answered, or failed before or after being carried out. */
  datatype DelNet = Done | Failed(applied: bool)

  function Delete(c: Config, h: Hashes, n: Node, k: BucketKey, now: int, del: DelNet, flush: Net)
    : (Hashes, Node)
  {
    var h1 := if Attempts(c, n, now) && (del.Done? || del.applied) then Del(h, k) else h;
    if Attempts(c, n, now) && del.Done? then Recover(h1, n, flush)
    else (h1, Trip(n, now).(fallback := Remove(n.fallback, k)))
  }

  // ---------------------------------------------------------------------------------------------
  // The cluster and its runs
  // ---------------------------------------------------------------------------------------------

  datatype State = State(redis: Hashes, nodes: seq<Node>)

  datatype Event =
    | Recorded(node: nat, key: BucketKey, usage: UsageState, now: int, pipe: Net, flush: Net)
    | Deleted(node: nat, key: BucketKey, now: int, del: DelNet, flush: Net)
    | Expired(key: BucketKey)

  predicate Enabled(s: State, e: Event) {
    e.Expired? || e.node < |s.nodes|
  }

  function Step(c: Config, s: State, e: Event): State
    requires Enabled(s, e)
  {
    match e
    case Recorded(i, k, u, now, pipe, flush) =>
      var (h, n) := Record(c, s.redis, s.nodes[i], k, u, now, pipe, flush);
      State(h, s.nodes[i := n])
    case Deleted(i, k, now, del, flush) =>
      var (h, n) := Delete(c, s.redis, s.nodes[i], k, now, del, flush);
      State(h, s.nodes[i := n])
    case Expired(k) =>
      s.(redis := Del(s.redis, k))
  }

  ghost predicate Start(s: State) {
    s.redis == map[] && forall i :: 0 <= i < |s.nodes| ==> s.nodes[i] == FRESH
  }

  predicate EnabledAll(s: State, es: seq<Event>) {
    forall i :: 0 <= i < |es| ==> Enabled(s, es[i])
  }

  function Run(c: Config, s: State, es: seq<Event>): (t: State)
    requires EnabledAll(s, es)
    ensures |t.nodes| == |s.nodes|
  {
    if es == [] then s else Step(c, Run(c, s, es[..|es| - 1]), es[|es| - 1])
  }

  function FallbackTotal(nodes: seq<Node>, p: Cell): nat {
    if nodes == [] then 0 else Count(nodes[0].fallback, p.0, p.1) + FallbackTotal(nodes[1..], p)
  }

  lemma {:induction false} FallbackTotalUpdate(nodes: seq<Node>, i: nat, n: Node, p: Cell)
    requires i < |nodes|
    ensures FallbackTotal(nodes[i := n], p)
         == FallbackTotal(nodes, p) - Count(nodes[i].fallback, p.0, p.1) + Count(n.fallback, p.0, p.1)
  {
    if i == 0 {
      assert nodes[0 := n][1..] == nodes[1..];
    } else {
      assert nodes[i := n][1..] == nodes[1..][i - 1 := n];
      FallbackTotalUpdate(nodes[1..], i - 1, n, p);
    }
  }

  lemma {:induction false} FallbackTotalBounds(nodes: seq<Node>, i: nat, p: Cell)
    requires i < |nodes|
    ensures Count(nodes[i].fallback, p.0, p.1) <= FallbackTotal(nodes, p)
  {
    if i == 0 {
    } else {
      FallbackTotalBounds(nodes[1..], i - 1, p);
    }
  }

  /** Everything the cluster still holds of a counter. */
  function Held(s: State, p: Cell): int {
    Value(s.redis, p) + FallbackTotal(s.nodes, p)
  }

  // ---------------------------------------------------------------------------------------------
  // The ledger of one counter
  // ---------------------------------------------------------------------------------------------

  datatype Ledger = Ledger(
    reported: nat,    // handed to RecordUsage
    removed: int,     // deleted with its bucket, from Redis or from a fallback
    dropped: nat,     // refused by a full fallback
    lost: nat,        // in a fallback whose flush did not carry it to Redis
    expired: int,     // in Redis when its key expired
    duplicated: nat,  // carried out by a pipeline that reported failure, then kept in the fallback too
    failed: nat       // handed to a pipeline that reported failure
  )

  const EMPTY := Ledger(0, 0, 0, 0, 0, 0, 0)

  function Sum(a: Ledger, b: Ledger): Ledger {
    Ledger(a.reported + b.reported, a.removed + b.removed, a.dropped + b.dropped, a.lost + b.lost,
           a.expired + b.expired, a.duplicated + b.duplicated, a.failed + b.failed)
  }

  /** What a flush fails to move: the amount of each cell whose increment does not take effect. */
  function LostBy(h: Hashes, n: Node, flush: Net, p: Cell): nat {
    if n.tripped && !Effective(h, NonZero(n.fallback), flush, p) then Count(n.fallback, p.0, p.1) else 0
  }

  function Entry(c: Config, s: State, e: Event, p: Cell): Ledger
    requires Enabled(s, e)
  {
    match e
    case Recorded(i, k, u, now, pipe, flush) =>
      var n, am := s.nodes[i], OneReport(k, u);
      var mine := if p.0 == k then u.Get(p.1) else 0;
      if Attempts(c, n, now) && BumpOk(s.redis, am, pipe) then
        EMPTY.(reported := mine, lost := LostBy(Bump(s.redis, am, pipe), n, flush, p))
      else
        EMPTY.(reported := mine,
               dropped := if Drops(c, n, k) then mine else 0,
               duplicated := if Attempts(c, n, now) && Effective(s.redis, am, pipe, p) then mine else 0,
               failed := if Attempts(c, n, now) then mine else 0)
    case Deleted(i, k, now, del, flush) =>
      var n := s.nodes[i];
      var gone := Attempts(c, n, now) && (del.Done? || del.applied);
      var fromRedis := if p.0 == k && gone then Value(s.redis, p) else 0;
      if Attempts(c, n, now) && del.Done? then
        EMPTY.(removed := fromRedis, lost := LostBy(Del(s.redis, k), n, flush, p))
      else
        EMPTY.(removed := fromRedis + if p.0 == k then Count(n.fallback, p.0, p.1) else 0)
    case Expired(k) =>
      EMPTY.(expired := if p.0 == k then Value(s.redis, p) else 0)
  }

  function Totals(c: Config, s: State, es: seq<Event>, p: Cell): Ledger
    requires EnabledAll(s, es)
  {
    if es == [] then EMPTY
    else
      var prev := es[..|es| - 1];
      Sum(Totals(c, s, prev, p), Entry(c, Run(c, s, prev), es[|es| - 1], p))
  }

  // --- one step ---

  /** A recovery moves each fallback counter to Redis, except what it loses. */
  lemma RecoverMoves(h: Hashes, n: Node, flush: Net, p: Cell)
    requires Count(n.fallback, p.0, p.1) < TWO63
    ensures var (h', n') := Recover(h, n, flush);
            && Value(h', p) + Count(n'.fallback, p.0, p.1) + LostBy(h, n, flush, p)
                 == Value(h, p) + Count(n.fallback, p.0, p.1)
  {
    hide Bump, NonZero;
    BumpAt(h, NonZero(n.fallback), flush, p);
    NonZeroAt(n.fallback, p);
  }

  /** The books of one instance balance over one call. */
  lemma RecordBalances(c: Config, s: State, e: Event, p: Cell)
    requires e.Recorded? && Enabled(s, e)
    requires e.key == p.0 ==> Count(s.nodes[e.node].fallback, p.0, p.1) + e.usage.Get(p.1) < TWO63
    requires Count(s.nodes[e.node].fallback, p.0, p.1) < TWO63
    ensures var n := s.nodes[e.node];
            var (h', n') := Record(c, s.redis, n, e.key, e.usage, e.now, e.pipe, e.flush);
            var b := Entry(c, s, e, p);
            && Value(h', p) + Count(n'.fallback, p.0, p.1) + b.dropped + b.lost
                 == Value(s.redis, p) + Count(n.fallback, p.0, p.1) + b.reported + b.duplicated
  {
    if Attempts(c, s.nodes[e.node], e.now) && BumpOk(s.redis, OneReport(e.key, e.usage), e.pipe) {
      TakenBalances(c, s, e, p);
    } else {
      SpilledBalances(c, s, e, p);
    }
  }

  /** Redis took the report. */
  lemma TakenBalances(c: Config, s: State, e: Event, p: Cell)
    requires e.Recorded? && Enabled(s, e) && Count(s.nodes[e.node].fallback, p.0, p.1) < TWO63
    requires e.key == p.0 ==> e.usage.Get(p.1) < TWO63
    requires Attempts(c, s.nodes[e.node], e.now) && BumpOk(s.redis, OneReport(e.key, e.usage), e.pipe)
    ensures var n := s.nodes[e.node];
            var (h', n') := Record(c, s.redis, n, e.key, e.usage, e.now, e.pipe, e.flush);
            var b := Entry(c, s, e, p);
            && b.dropped == b.duplicated == 0
            && Value(h', p) + Count(n'.fallback, p.0, p.1) + b.lost
                 == Value(s.redis, p) + Count(n.fallback, p.0, p.1) + b.reported
  {
    hide Bump, NonZero, BumpOk, Effective, Recover, LostBy, OneReport;
    var am := OneReport(e.key, e.usage);
    OneReportAt(s.redis, e.key, e.usage, e.pipe, p);
    BumpAt(s.redis, am, e.pipe, p);
    RecoverMoves(Bump(s.redis, am, e.pipe), s.nodes[e.node], e.flush, p);
  }

  /** Redis did not, or was not asked. */
  lemma SpilledBalances(c: Config, s: State, e: Event, p: Cell)
    requires e.Recorded? && Enabled(s, e)
    requires e.key == p.0 ==> Count(s.nodes[e.node].fallback, p.0, p.1) + e.usage.Get(p.1) < TWO63
    requires !(Attempts(c, s.nodes[e.node], e.now) && BumpOk(s.redis, OneReport(e.key, e.usage), e.pipe))
    ensures var n := s.nodes[e.node];
            var (h', n') := Record(c, s.redis, n, e.key, e.usage, e.now, e.pipe, e.flush);
            var b := Entry(c, s, e, p);
            && b.lost == 0
            && Value(h', p) + Count(n'.fallback, p.0, p.1) + b.dropped
                 == Value(s.redis, p) + Count(n.fallback, p.0, p.1) + b.reported + b.duplicated
  {
    hide Bump, NonZero, BumpOk, Effective, Attempts, Drops, OneReport, Add, Count;
    var n, am := s.nodes[e.node], OneReport(e.key, e.usage);
    OneReportAt(s.redis, e.key, e.usage, e.pipe, p);
    BumpAt(s.redis, am, e.pipe, p);
    AddCounts(n.fallback, e.key, e.usage, p.0, p.1);
  }

  lemma OneReportAt(h: Hashes, k: BucketKey, u: UsageState, net: Net, p: Cell)
    ensures p in OneReport(k, u) <==> p.0 == k
    ensures p.0 == k ==> OneReport(k, u)[p] == u.Get(p.1)
    ensures BumpOk(h, OneReport(k, u), net) && p.0 == k ==> Effective(h, OneReport(k, u), net, p)
    ensures p.0 != k ==> !Effective(h, OneReport(k, u), net, p)
  {
    assert p.1 == Allowed || p.1 == Denied;
    assert p == (p.0, p.1);
  }

  lemma DelAt(h: Hashes, k: BucketKey, p: Cell)
    ensures Value(Del(h, k), p) == if p.0 == k then 0 else Value(h, p)
  {
    assert p.1 == Allowed || p.1 == Denied;
    assert p == (p.0, p.1);
  }

  lemma DeleteBalances(c: Config, s: State, e: Event, p: Cell)
    requires e.Deleted? && Enabled(s, e)
    requires Count(s.nodes[e.node].fallback, p.0, p.1) < TWO63
    ensures var n := s.nodes[e.node];
            var (h', n') := Delete(c, s.redis, n, e.key, e.now, e.del, e.flush);
            var b := Entry(c, s, e, p);
            && Value(h', p) + Count(n'.fallback, p.0, p.1) + b.removed + b.lost
                 == Value(s.redis, p) + Count(n.fallback, p.0, p.1)
  {
    hide Bump, NonZero, Effective, Recover, LostBy, Count, Remove;
    var n := s.nodes[e.node];
    DelAt(s.redis, e.key, p);
    if Attempts(c, n, e.now) && e.del.Done? {
      RecoverMoves(Del(s.redis, e.key), n, e.flush, p);
    } else {
      AddCounts(n.fallback, e.key, UsageState(0, 0), p.0, p.1);
    }
  }

  lemma StepBalances(c: Config, s: State, e: Event, p: Cell)
    requires Enabled(s, e)
    requires FallbackTotal(s.nodes, p) + Entry(c, s, e, p).reported < TWO63
    ensures var b := Entry(c, s, e, p);
            && Held(Step(c, s, e), p) + b.removed + b.dropped + b.lost + b.expired
                 == Held(s, p) + b.reported + b.duplicated
    ensures FallbackTotal(Step(c, s, e).nodes, p) <= FallbackTotal(s.nodes, p) + Entry(c, s, e, p).reported
  {
    hide Record, Delete, Entry, FallbackTotal;
    if e.Expired? {
      DelAt(s.redis, e.key, p);
      ExpiryEntry(c, s, e, p);
    } else {
      FallbackTotalBounds(s.nodes, e.node, p);
      FallbackTotalUpdate(s.nodes, e.node, Step(c, s, e).nodes[e.node], p);
      FallbackGrowth(c, s, e, p);
      if e.Recorded? {
        RecordEntry(c, s, e, p);
        RecordBalances(c, s, e, p);
      } else {
        DeleteEntry(c, s, e, p);
        DeleteBalances(c, s, e, p);
      }
    }
  }

  // What each kind of event does not book.

  lemma ExpiryEntry(c: Config, s: State, e: Event, p: Cell)
    requires e.Expired?
    ensures Entry(c, s, e, p) == EMPTY.(expired := if p.0 == e.key then Value(s.redis, p) else 0)
  {}

  lemma RecordEntry(c: Config, s: State, e: Event, p: Cell)
    requires e.Recorded? && Enabled(s, e)
    ensures var b := Entry(c, s, e, p);
            b.removed == b.expired == 0 && b.reported == if p.0 == e.key then e.usage.Get(p.1) else 0
  {
    hide Bump, BumpOk, Effective, LostBy;
  }

  lemma DeleteEntry(c: Config, s: State, e: Event, p: Cell)
    requires e.Deleted? && Enabled(s, e)
    ensures var b := Entry(c, s, e, p);
            b.reported == b.dropped == b.expired == b.duplicated == 0
  {
    hide LostBy, Del;
  }

  /** A fallback counter grows by no more than was reported. */
  lemma FallbackGrowth(c: Config, s: State, e: Event, p: Cell)
    requires !e.Expired? && Enabled(s, e)
    requires Count(s.nodes[e.node].fallback, p.0, p.1) + Entry(c, s, e, p).reported < TWO64
    ensures Count(Step(c, s, e).nodes[e.node].fallback, p.0, p.1)
         <= Count(s.nodes[e.node].fallback, p.0, p.1) + Entry(c, s, e, p).reported
  {
    hide Bump, BumpOk, Effective, LostBy, Del, Add, Remove;
    AddCounts(s.nodes[e.node].fallback, e.key, if e.Recorded? then e.usage else UsageState(0, 0), p.0, p.1);
  }

  /** Counters never go negative while reports stay below 2^63. */
  lemma StepNonNegative(c: Config, s: State, e: Event, p: Cell)
    requires Enabled(s, e) && Value(s.redis, p) >= 0
    requires FallbackTotal(s.nodes, p) + Entry(c, s, e, p).reported < TWO63
    ensures Value(Step(c, s, e).redis, p) >= 0
    ensures Entry(c, s, e, p).removed >= 0 && Entry(c, s, e, p).expired >= 0
  {
    hide Bump, NonZero;
    DelAt(s.redis, e.key, p);
    if !e.Expired? {
      var n := s.nodes[e.node];
      FallbackTotalBounds(s.nodes, e.node, p);
      NonZeroAt(n.fallback, p);
      if e.Recorded? {
        var am := OneReport(e.key, e.usage);
        OneReportAt(s.redis, e.key, e.usage, e.pipe, p);
        BumpAt(s.redis, am, e.pipe, p);
        BumpAt(Bump(s.redis, am, e.pipe), NonZero(n.fallback), e.flush, p);
      } else {
        BumpAt(s.redis, NonZero(n.fallback), e.flush, p);
        BumpAt(Del(s.redis, e.key), NonZero(n.fallback), e.flush, p);
      }
    }
  }

  // --- whole runs ---

  /**
    Conservation. Whatever the outcomes and retry times, while less than 2^63 was reported for a
    counter, what the cluster holds of it is what was reported and duplicated, less what was removed,
    dropped, lost and expired; and no more was duplicated than failed pipelines carried.
  */
  lemma {:induction false} Conservation(c: Config, s: State, es: seq<Event>, p: Cell)
    requires Start(s) && EnabledAll(s, es)
    requires Totals(c, s, es, p).reported < TWO63
    ensures var t, b := Run(c, s, es), Totals(c, s, es, p);
            && Held(t, p) == b.reported + b.duplicated - b.removed - b.dropped - b.lost - b.expired
            && Value(t.redis, p) >= 0 && b.removed >= 0 && b.expired >= 0
            && FallbackTotal(t.nodes, p) <= b.reported
            && b.duplicated <= b.failed <= b.reported
  {
    if es == [] {
      NothingAtStart(s.nodes, p);
    } else {
      var prev := es[..|es| - 1];
      Conservation(c, s, prev, p);
      StepBalances(c, Run(c, s, prev), es[|es| - 1], p);
      StepNonNegative(c, Run(c, s, prev), es[|es| - 1], p);
    }
  }

  lemma {:induction false} NothingAtStart(nodes: seq<Node>, p: Cell)
    requires forall i :: 0 <= i < |nodes| ==> nodes[i].fallback == map[]
    ensures FallbackTotal(nodes, p) == 0
  {
    if nodes == [] {
    } else {
      NothingAtStart(nodes[1..], p);
    }
  }

  /** A failed pipeline changed nothing. */
  predicate AllOrNothing(es: seq<Event>) {
    forall i :: 0 <= i < |es| && es[i].Recorded? ==> es[i].pipe in {Up, Down({})}
  }

  /** If no failed pipeline left a trace, nothing is ever counted twice. */
  lemma {:induction false} AllOrNothingIsExact(c: Config, s: State, es: seq<Event>, k: BucketKey, f: Field)
    requires Start(s) && EnabledAll(s, es) && AllOrNothing(es)
    requires forall g :: Totals(c, s, es, (k, g)).reported < TWO63
    ensures Totals(c, s, es, (k, f)).duplicated == 0
  {
    if es == [] {
    } else {
      var prev, e := es[..|es| - 1], es[|es| - 1];
      var t := Run(c, s, prev);
      forall g ensures Totals(c, s, prev, (k, g)).reported <= Totals(c, s, es, (k, g)).reported {}
      forall g
        ensures Totals(c, s, prev, (k, g)).duplicated == 0
        ensures 0 <= Value(t.redis, (k, g)) <= Totals(c, s, prev, (k, g)).reported
      {
        AllOrNothingIsExact(c, s, prev, k, g);
        Conservation(c, s, prev, (k, g));
      }
      if e.Recorded? && e.key == k {
        forall g ensures Value(t.redis, (k, g)) + e.usage.Get(g) < TWO63 {
          assert Entry(c, t, e, (k, g)).reported == e.usage.Get(g);
        }
        InRangeIsOk(t.redis, k, e.usage, e.pipe);
      }
    }
  }

  lemma InRangeIsOk(h: Hashes, k: BucketKey, u: UsageState, net: Net)
    requires forall g :: 0 <= Value(h, (k, g)) && Value(h, (k, g)) + u.Get(g) < TWO63
    ensures net.Up? ==> BumpOk(h, OneReport(k, u), net)
  {
    forall p | p in OneReport(k, u) ensures InRange(Value(h, p) + ToInt64(OneReport(k, u)[p])) {
      OneReportAt(h, k, u, net, p);
      assert p == (k, p.1);
    }
  }

  /** A closed breaker has an empty fallback, and no fallback outgrows its capacity. */
  ghost predicate BreakerInv(c: Config, n: Node) {
    (!n.tripped ==> n.fallback == map[]) && |n.fallback| <= c.maxFallbackKeys
  }

  lemma CallKeepsBreaker(c: Config, h: Hashes, n: Node, k: BucketKey, u: UsageState, now: int,
                         pipe: Net, del: DelNet, flush: Net)
    requires c.maxFallbackKeys > 0 && BreakerInv(c, n)
    ensures BreakerInv(c, Record(c, h, n, k, u, now, pipe, flush).1)
    ensures BreakerInv(c, Delete(c, h, n, k, now, del, flush).1)
  {
    hide Bump, NonZero, BumpOk, Attempts, Add, Remove, Del;
    FallbackSizes(n.fallback, k, u);
  }

  lemma FallbackSizes(b: Buckets, k: BucketKey, u: UsageState)
    ensures |Add(b, k, u)| == |b| + if k in b then 0 else 1
    ensures |Remove(b, k)| <= |b|
  {
    assert Add(b, k, u).Keys == b.Keys + {k};
    SubsetSize(Remove(b, k).Keys, b.Keys);
  }

  /** Both hold in every reachable state, although the call that trips the breaker checks no capacity. */
  lemma {:induction false} BreakersHold(c: Config, s: State, es: seq<Event>, i: nat)
    requires Start(s) && EnabledAll(s, es) && c.maxFallbackKeys > 0
    requires i < |s.nodes|
    ensures BreakerInv(c, Run(c, s, es).nodes[i])
  {
    if es == [] {
    } else {
      var prev, e := es[..|es| - 1], es[|es| - 1];
      var t := Run(c, s, prev);
      BreakersHold(c, s, prev, i);
      if !e.Expired? && e.node == i {
        CallKeepsBreaker(c, t.redis, t.nodes[i], e.key, if e.Recorded? then e.usage else UsageState(0, 0), e.now,
                         if e.Recorded? then e.pipe else Up, if e.Deleted? then e.del else Done, e.flush);
      }
    }
  }

  // ---------------------------------------------------------------------------------------------
  // Refinement of the in-memory store
  // ---------------------------------------------------------------------------------------------

  /** The in-memory store fed the same calls. */
  function MemoryRun(es: seq<Event>): Buckets {
    if es == [] then map[] else MemoryStep(MemoryRun(es[..|es| - 1]), es[|es| - 1])
  }

  function MemoryStep(b: Buckets, e: Event): Buckets {
    match e
    case Recorded(_, k, u, _, _, _) => Add(b, k, u)
    case Deleted(_, k, _, _, _) => Remove(b, k)
    case Expired(_) => b
  }

  /**
    Nothing of this counter is dropped, lost, expired or duplicated, and a removal of its bucket
    succeeds through a closed breaker while no instance holds outage counts of it.
  */
  predicate Faithful(c: Config, s: State, e: Event, p: Cell)
    requires Enabled(s, e)
  {
    var b := Entry(c, s, e, p);
    && b.dropped == b.lost == b.expired == b.duplicated == 0
    && (e.Deleted? && e.key == p.0 ==>
          e.del.Done? && !s.nodes[e.node].tripped && FallbackTotal(s.nodes, p) == 0)
  }

  predicate FaithfulRun(c: Config, s: State, es: seq<Event>, p: Cell)
    requires EnabledAll(s, es)
  {
    es == [] ||
    (FaithfulRun(c, s, es[..|es| - 1], p) && Faithful(c, Run(c, s, es[..|es| - 1]), es[|es| - 1], p))
  }

  /** In such runs Redis and the fallbacks together are the in-memory store. */
  lemma {:induction false} RefinesMemory(c: Config, s: State, es: seq<Event>, p: Cell)
    requires Start(s) && EnabledAll(s, es) && FaithfulRun(c, s, es, p)
    requires Totals(c, s, es, p).reported < TWO63
    ensures Held(Run(c, s, es), p) == Count(MemoryRun(es), p.0, p.1) <= Totals(c, s, es, p).reported
  {
    if es == [] {
      NothingAtStart(s.nodes, p);
    } else {
      var prev, e := es[..|es| - 1], es[|es| - 1];
      var t := Run(c, s, prev);
      RefinesMemory(c, s, prev, p);
      Conservation(c, s, prev, p);
      StepRefines(c, t, e, p, MemoryRun(prev));
    }
  }

  lemma ClosedDeleteEntry(c: Config, s: State, e: Event, p: Cell)
    requires e.Deleted? && Enabled(s, e)
    ensures p.0 != e.key ==> Entry(c, s, e, p).removed == 0
    ensures p.0 == e.key && e.del.Done? && !s.nodes[e.node].tripped ==> Entry(c, s, e, p).removed == Value(s.redis, p)
  {
    hide LostBy, Del;
  }

  lemma StepRefines(c: Config, s: State, e: Event, p: Cell, b: Buckets)
    requires Enabled(s, e) && Faithful(c, s, e, p)
    requires Value(s.redis, p) >= 0 && Held(s, p) == Count(b, p.0, p.1)
    requires Held(s, p) + Entry(c, s, e, p).reported < TWO63
    ensures Held(Step(c, s, e), p) == Count(MemoryStep(b, e), p.0, p.1) <= Held(s, p) + Entry(c, s, e, p).reported
  {
    hide Step, Entry, Add, Remove, Count, FallbackTotal;
    StepBalances(c, s, e, p);
    if e.Recorded? {
      RecordEntry(c, s, e, p);
      AddCounts(b, e.key, e.usage, p.0, p.1);
    } else if e.Deleted? {
      DeleteEntry(c, s, e, p);
      ClosedDeleteEntry(c, s, e, p);
      AddCounts(b, e.key, UsageState(0, 0), p.0, p.1);
    } else {
      ExpiryEntry(c, s, e, p);
    }
  }

  /** With every breaker closed, Redis alone is the in-memory store. */
  lemma ClosedRefinesMemory(c: Config, s: State, es: seq<Event>, p: Cell)
    requires Start(s) && EnabledAll(s, es) && FaithfulRun(c, s, es, p) && c.maxFallbackKeys > 0
    requires Totals(c, s, es, p).reported < TWO63
    requires var t := Run(c, s, es); forall i :: 0 <= i < |t.nodes| ==> !t.nodes[i].tripped
    ensures Value(Run(c, s, es).redis, p) == Count(MemoryRun(es), p.0, p.1)
  {
    var t := Run(c, s, es);
    RefinesMemory(c, s, es, p);
    forall i | 0 <= i < |t.nodes| ensures t.nodes[i].fallback == map[] {
      BreakersHold(c, s, es, i);
    }
    NothingAtStart(t.nodes, p);
  }

  // ---------------------------------------------------------------------------------------------
  // What the code does not promise, and exactly when it keeps the promise anyway
  // ---------------------------------------------------------------------------------------------

  /** The outage counts of `p` kept by instances other than `i`. */
  function Elsewhere(s: State, i: nat, p: Cell): int
    requires i < |s.nodes|
  {
    FallbackTotal(s.nodes, p) - Count(s.nodes[i].fallback, p.0, p.1)
  }

  /**
    RemoveBucket leaves nothing of the bucket exactly when DEL was carried out or Redis had nothing,
    no other instance holds outage counts of it, and its own outage counts are not flushed back:
    a recovering removal deletes first and flushes afterwards.
  */
  lemma DeleteLeavesNothingIff(c: Config, s: State, e: Event, p: Cell)
    requires e.Deleted? && Enabled(s, e) && e.key == p.0
    requires Value(s.redis, p) >= 0 && FallbackTotal(s.nodes, p) < TWO63
    ensures var n := s.nodes[e.node];
            var carriedOut := Attempts(c, n, e.now) && (e.del.Done? || e.del.applied);
            var answered := Attempts(c, n, e.now) && e.del.Done?;
            Held(Step(c, s, e), p) == 0 <==>
              && (carriedOut || Value(s.redis, p) == 0)
              && Elsewhere(s, e.node, p) == 0
              && (answered ==> Count(n.fallback, p.0, p.1) == 0 || (n.tripped && !Arrives(e.flush, p)))
  {
    hide Bump, NonZero, Effective, Step;
    var n := s.nodes[e.node];
    StepBalances(c, s, e, p);
    FallbackTotalBounds(s.nodes, e.node, p);
    DelAt(s.redis, e.key, p);
    if n.tripped {
      FlushTakesWhatArrives(Del(s.redis, e.key), n, e.flush, p);
    }
  }

  /** A flush into an empty cell loses exactly what does not arrive. */
  lemma FlushTakesWhatArrives(h: Hashes, n: Node, flush: Net, p: Cell)
    requires Count(n.fallback, p.0, p.1) < TWO63
    requires n.tripped && Value(h, p) == 0
    ensures LostBy(h, n, flush, p) == Count(n.fallback, p.0, p.1)
       <==> Count(n.fallback, p.0, p.1) == 0 || !Arrives(flush, p)
  {
    hide NonZero;
    NonZeroAt(n.fallback, p);
  }

  /**
    A successful call adds the reported amount to Redis exactly when the amount survives the int64
    conversion and the sum stays in range; a report of 2^63 or more is taken for a negative one.
  */
  lemma RecordAddsIff(h: Hashes, k: BucketKey, u: UsageState, f: Field)
    ensures Value(Bump(h, OneReport(k, u), Up), (k, f)) == Value(h, (k, f)) + u.Get(f)
       <==> u.Get(f) < TWO63 && Value(h, (k, f)) + u.Get(f) < TWO63
  {
    hide Bump;
    OneReportAt(h, k, u, Up, (k, f));
    BumpAt(h, OneReport(k, u), Up, (k, f));
  }

  lemma HugeReportGoesNegative(k: BucketKey)
    ensures var h := Bump(map[], OneReport(k, UsageState(TWO63, 0)), Up);
            Value(h, (k, Allowed)) == -TWO63
  {
    BumpAt(map[], OneReport(k, UsageState(TWO63, 0)), Up, (k, Allowed));
  }

  lemma RunOfTwo(c: Config, s: State, a: Event, b: Event)
    requires Enabled(s, a) && Enabled(Step(c, s, a), b)
    ensures EnabledAll(s, [a, b]) && Run(c, s, [a, b]) == Step(c, Step(c, s, a), b)
    ensures MemoryRun([a, b]) == MemoryStep(MemoryStep(map[], a), b)
  {
    hide Step, MemoryStep;
    StepSize(c, s, a);
    assert [a, b][..1] == [a] && [a][..0] == [];
    assert Run(c, s, [a]) == Step(c, Run(c, s, []), a);
    assert MemoryRun([a]) == MemoryStep(MemoryRun([]), a);
  }

  lemma StepSize(c: Config, s: State, e: Event)
    requires Enabled(s, e)
    ensures |Step(c, s, e).nodes| == |s.nodes|
  {}

  // --- whose counts a removal takes ---

  /** The event empties the counter in Redis, by a carried-out DEL or by expiry. */
  predicate Empties(c: Config, s: State, e: Event, p: Cell)
    requires Enabled(s, e)
  {
    !e.Recorded? && e.key == p.0 &&
    (e.Deleted? ==> Attempts(c, s.nodes[e.node], e.now) && (e.del.Done? || e.del.applied))
  }

  /** What the call adds to the counter in Redis: its own report, and what a recovery flushes. */
  function Put(c: Config, s: State, e: Event, p: Cell): int
    requires Enabled(s, e)
  {
    match e
    case Expired(_) => 0
    case Recorded(i, k, u, now, pipe, flush) =>
      var n, am := s.nodes[i], OneReport(k, u);
      if !Attempts(c, n, now) then 0
      else
        (if Effective(s.redis, am, pipe, p) then ToInt64(am[p]) else 0)
        + if BumpOk(s.redis, am, pipe) then Flushed(Bump(s.redis, am, pipe), n, flush, p) else 0
    case Deleted(i, k, now, del, flush) =>
      var n := s.nodes[i];
      if Attempts(c, n, now) && del.Done? then Flushed(Del(s.redis, k), n, flush, p) else 0
  }

  function Flushed(h: Hashes, n: Node, flush: Net, p: Cell): int {
    if n.tripped && Effective(h, NonZero(n.fallback), flush, p) then ToInt64(NonZero(n.fallback)[p]) else 0
  }

  /** What the calls of one instance have put into Redis since the counter was last emptied. */
  function Share(c: Config, s: State, es: seq<Event>, j: nat, p: Cell): int
    requires EnabledAll(s, es)
  {
    if es == [] then 0
    else
      var prev, e := es[..|es| - 1], es[|es| - 1];
      var t := Run(c, s, prev);
      (if Empties(c, t, e, p) then 0 else Share(c, s, prev, j, p))
      + if !e.Expired? && e.node == j then Put(c, t, e, p) else 0
  }

  /** The shares of the first `n` instances, except `i`. */
  function SharesWithout(c: Config, s: State, es: seq<Event>, n: nat, i: int, p: Cell): int
    requires EnabledAll(s, es)
  {
    if n == 0 then 0
    else SharesWithout(c, s, es, n - 1, i, p) + if n - 1 == i then 0 else Share(c, s, es, n - 1, p)
  }

  lemma StepPuts(c: Config, s: State, e: Event, p: Cell)
    requires Enabled(s, e)
    ensures Value(Step(c, s, e).redis, p) == (if Empties(c, s, e, p) then 0 else Value(s.redis, p)) + Put(c, s, e, p)
    ensures e.Expired? ==> Put(c, s, e, p) == 0
  {
    hide Bump, NonZero, Effective, BumpOk, OneReport, Del;
    DelAt(s.redis, e.key, p);
    if e.Recorded? {
      var am := OneReport(e.key, e.usage);
      BumpAt(s.redis, am, e.pipe, p);
      RecoverPuts(Bump(s.redis, am, e.pipe), s.nodes[e.node], e.flush, p);
    } else if e.Deleted? {
      RecoverPuts(Del(s.redis, e.key), s.nodes[e.node], e.flush, p);
    }
  }

  lemma RecoverPuts(h: Hashes, n: Node, flush: Net, p: Cell)
    ensures Value(Recover(h, n, flush).0, p) == Value(h, p) + Flushed(h, n, flush, p)
  {
    hide Bump, NonZero, Effective;
    BumpAt(h, NonZero(n.fallback), flush, p);
  }

  lemma {:induction false} SharesStep(c: Config, s: State, es: seq<Event>, n: nat, i: int, p: Cell)
    requires EnabledAll(s, es) && es != []
    ensures var prev, e := es[..|es| - 1], es[|es| - 1];
            var t := Run(c, s, prev);
            SharesWithout(c, s, es, n, i, p)
              == (if Empties(c, t, e, p) then 0 else SharesWithout(c, s, prev, n, i, p))
                 + if !e.Expired? && e.node < n && e.node != i then Put(c, t, e, p) else 0
  {
    hide Empties, Put, Run;
    if n == 0 {
    } else {
      SharesStep(c, s, es, n - 1, i, p);
    }
  }

  /** In every run, what Redis holds of a counter is made up of the shares of the instances. */
  lemma {:induction false} SharesMakeUpRedis(c: Config, s: State, es: seq<Event>, p: Cell)
    requires Start(s) && EnabledAll(s, es)
    ensures Value(Run(c, s, es).redis, p) == SharesWithout(c, s, es, |s.nodes|, -1, p)
  {
    hide Empties, Put, Step;
    if es == [] {
      NoShares(c, s, |s.nodes|, -1, p);
    } else {
      SharesMakeUpRedis(c, s, es[..|es| - 1], p);
      SharesStep(c, s, es, |s.nodes|, -1, p);
      StepPuts(c, Run(c, s, es[..|es| - 1]), es[|es| - 1], p);
    }
  }

  lemma {:induction false} NoShares(c: Config, s: State, n: nat, i: int, p: Cell)
    ensures SharesWithout(c, s, [], n, i, p) == 0
  {
    if n == 0 {
    } else {
      NoShares(c, s, n - 1, i, p);
    }
  }

  lemma PutNonNegative(c: Config, s: State, e: Event, p: Cell)
    requires Enabled(s, e) && FallbackTotal(s.nodes, p) + Entry(c, s, e, p).reported < TWO63
    ensures Put(c, s, e, p) >= 0
  {
    hide Bump, BumpOk, NonZero, Effective, LostBy, OneReport;
    if !e.Expired? {
      FallbackTotalBounds(s.nodes, e.node, p);
      NonZeroAt(s.nodes[e.node].fallback, p);
      EffectiveIsCarried(Del(s.redis, e.key), NonZero(s.nodes[e.node].fallback), e.flush, p);
    }
    if e.Recorded? {
      var am := OneReport(e.key, e.usage);
      OneReportAt(s.redis, e.key, e.usage, e.pipe, p);
      EffectiveIsCarried(Bump(s.redis, am, e.pipe), NonZero(s.nodes[e.node].fallback), e.flush, p);
      RecordEntry(c, s, e, p);
    }
  }

  lemma EffectiveIsCarried(h: Hashes, am: Amounts, net: Net, p: Cell)
    ensures Effective(h, am, net, p) ==> p in am
  {}

  lemma {:induction false} ShareNonNegative(c: Config, s: State, es: seq<Event>, j: nat, p: Cell)
    requires Start(s) && EnabledAll(s, es) && Totals(c, s, es, p).reported < TWO63
    ensures Share(c, s, es, j, p) >= 0
  {
    hide Empties, Put, Entry, Step;
    if es == [] {
    } else {
      var prev := es[..|es| - 1];
      ShareNonNegative(c, s, prev, j, p);
      Conservation(c, s, prev, p);
      PutNonNegative(c, Run(c, s, prev), es[|es| - 1], p);
    }
  }

  lemma {:induction false} SharesSplit(c: Config, s: State, es: seq<Event>, n: nat, i: nat, p: Cell)
    requires EnabledAll(s, es)
    ensures SharesWithout(c, s, es, n, -1, p)
         == SharesWithout(c, s, es, n, i, p) + if i < n then Share(c, s, es, i, p) else 0
  {
    hide Share;
    if n == 0 {
    } else {
      SharesSplit(c, s, es, n - 1, i, p);
    }
  }

  lemma {:induction false} NothingSharedIff(c: Config, s: State, es: seq<Event>, n: nat, i: nat, p: Cell)
    requires EnabledAll(s, es) && forall j :: 0 <= j < n ==> Share(c, s, es, j, p) >= 0
    ensures SharesWithout(c, s, es, n, i, p) >= 0
    ensures SharesWithout(c, s, es, n, i, p) == 0
       <==> forall j :: 0 <= j < n && j != i ==> Share(c, s, es, j, p) == 0
  {
    hide Share;
    if n == 0 {
    } else {
      assert Share(c, s, es, n - 1, p) >= 0;
      NothingSharedIff(c, s, es, n - 1, i, p);
    }
  }

  /**
    Reference counts are kept per instance, but Redis is shared. Over every run, a removal that is carried
    out takes from Redis the share of its own instance and the shares of all others; it takes nothing
    from them exactly if none of them has put anything there since the counter was last emptied.
  */
  lemma RemovalTakesAllShares(c: Config, s: State, es: seq<Event>, e: Event, p: Cell)
    requires Start(s) && EnabledAll(s, es) && Totals(c, s, es, p).reported < TWO63
    requires e.Deleted? && Enabled(s, e) && Empties(c, Run(c, s, es), e, p)
    ensures var t, others := Run(c, s, es), SharesWithout(c, s, es, |s.nodes|, e.node, p);
            && Value(t.redis, p) == Share(c, s, es, e.node, p) + others
            && Entry(c, t, e, p).removed == Share(c, s, es, e.node, p) + others
                 + (if e.del.Done? then 0 else Count(t.nodes[e.node].fallback, p.0, p.1))
            && others >= 0
            && (others == 0 <==> forall j :: 0 <= j < |s.nodes| && j != e.node ==> Share(c, s, es, j, p) == 0)
  {
    hide Share, SharesWithout, LostBy;
    SharesMakeUpRedis(c, s, es, p);
    SharesSplit(c, s, es, |s.nodes|, e.node, p);
    forall j: nat ensures Share(c, s, es, j, p) >= 0 {
      ShareNonNegative(c, s, es, j, p);
    }
    NothingSharedIff(c, s, es, |s.nodes|, e.node, p);
  }

  /** For example, an instance whose last subscriber leaves deletes what another has just recorded. */
  lemma RemovalTakesOtherInstancesCounts(c: Config, s: State, k: BucketKey, u: UsageState, v: UsageState)
    requires s == State(map[], [FRESH, FRESH]) && forall f :: u.Get(f) + v.Get(f) < TWO63
    ensures var first, second := Recorded(0, k, u, 0, Up, Up), Recorded(1, k, v, 0, Up, Up);
            var both := Step(c, Step(c, s, first), second);
            forall f :: && Held(both, (k, f)) == u.Get(f) + v.Get(f)
                        && Held(Step(c, both, Deleted(0, k, 0, Done, Up)), (k, f)) == 0
  {
    hide Bump, NonZero;
    var first, second := Recorded(0, k, u, 0, Up, Up), Recorded(1, k, v, 0, Up, Up);
    var one := Step(c, s, first);
    InRangeIsOk(s.redis, k, u, Up);
    forall f ensures Value(one.redis, (k, f)) == u.Get(f) {
      OneReportAt(s.redis, k, u, Up, (k, f));
      BumpAt(s.redis, OneReport(k, u), Up, (k, f));
    }
    assert one.nodes == s.nodes;
    InRangeIsOk(one.redis, k, v, Up);
    var both := Step(c, one, second);
    forall f ensures Value(both.redis, (k, f)) == u.Get(f) + v.Get(f) {
      OneReportAt(one.redis, k, v, Up, (k, f));
      BumpAt(one.redis, OneReport(k, v), Up, (k, f));
    }
    assert both.nodes == s.nodes;
    var after := Step(c, both, Deleted(0, k, 0, Done, Up));
    assert after.nodes == s.nodes;
    forall f ensures Held(both, (k, f)) == u.Get(f) + v.Get(f) && Held(after, (k, f)) == 0 {
      DelAt(both.redis, k, (k, f));
      NothingAtStart(s.nodes, (k, f));
    }
  }

  // --- outages ---

  /** Redis takes the call: it is asked, answers, and reports no error. */
  predicate Takes(c: Config, s: State, e: Event)
    requires Enabled(s, e) && !e.Expired?
  {
    Attempts(c, s.nodes[e.node], e.now)
    && if e.Recorded? then BumpOk(s.redis, OneReport(e.key, e.usage), e.pipe) else e.del.Done?
  }

  /**
    A report that Redis does not take goes to the fallback of its instance, and is dropped exactly if the
    breaker was open already, the fallback is full, and the report would add a key to it.
  */
  lemma DroppedIff(c: Config, s: State, e: Event, p: Cell)
    requires e.Recorded? && Enabled(s, e) && !Takes(c, s, e) && c.maxFallbackKeys > 0
    requires e.key == p.0 && e.usage.Get(p.1) > 0
    requires Count(s.nodes[e.node].fallback, p.0, p.1) + e.usage.Get(p.1) < TWO64
    ensures var b, n := s.nodes[e.node].fallback, s.nodes[e.node];
            var now := Count(Step(c, s, e).nodes[e.node].fallback, p.0, p.1);
            var dropped := n.tripped && |b| >= c.maxFallbackKeys && e.key !in b.Keys;
            && (now == Count(b, p.0, p.1) <==> dropped)
            && (now == Count(b, p.0, p.1) + e.usage.Get(p.1) <==> !dropped)
            && Entry(c, s, e, p).dropped == if dropped then e.usage.Get(p.1) else 0
  {
    hide Bump, BumpOk, OneReport, Effective, Add, Count, LostBy;
    AddCounts(s.nodes[e.node].fallback, e.key, e.usage, p.0, p.1);
  }

  /** The calls of instance `i` in the run, none of which Redis takes. */
  predicate Outage(c: Config, s: State, es: seq<Event>, i: nat)
    requires EnabledAll(s, es)
  {
    es == [] ||
    (Outage(c, s, es[..|es| - 1], i) &&
     var e := es[|es| - 1];
     e.Expired? || e.node != i || !Takes(c, Run(c, s, es[..|es| - 1]), e))
  }

  /** The keys that instance `i` reports on. */
  function ReportedKeys(es: seq<Event>, i: nat): set<BucketKey> {
    set e | e in es && e.Recorded? && e.node == i :: e.key
  }

  /** An in-memory store fed the calls of one instance. */
  function FedBy(b: Buckets, es: seq<Event>, i: nat): Buckets {
    if es == [] then b
    else
      var prev, e := FedBy(b, es[..|es| - 1], i), es[|es| - 1];
      if !e.Expired? && e.node == i then MemoryStep(prev, e) else prev
  }

  /**
    An outage, however long, in which an instance sees no more keys than its fallback may hold loses nothing:
    the fallback is the in-memory store fed the same calls.
  */
  lemma {:induction false} OutageWithinCapacity(c: Config, s: State, es: seq<Event>, i: nat)
    requires EnabledAll(s, es) && i < |s.nodes| && Outage(c, s, es, i)
    requires |s.nodes[i].fallback.Keys + ReportedKeys(es, i)| <= c.maxFallbackKeys
    ensures var b := Run(c, s, es).nodes[i].fallback;
            && b == FedBy(s.nodes[i].fallback, es, i)
            && b.Keys <= s.nodes[i].fallback.Keys + ReportedKeys(es, i)
  {
    hide Takes, Step, Add, Remove;
    if es == [] {
    } else {
      var prev, e := es[..|es| - 1], es[|es| - 1];
      var t, seen := Run(c, s, prev), s.nodes[i].fallback.Keys + ReportedKeys(es, i);
      assert forall x :: x in prev ==> x in es;
      assert ReportedKeys(prev, i) <= ReportedKeys(es, i);
      SubsetSize(s.nodes[i].fallback.Keys + ReportedKeys(prev, i), seen);
      OutageWithinCapacity(c, s, prev, i);
      if !e.Expired? && e.node == i {
        assert e in es;
        assert e.Recorded? ==> e.key in seen;
        Spills(c, t, e, seen);
      } else {
        OthersUntouched(c, t, e, i);
      }
    }
  }

  lemma Spills(c: Config, s: State, e: Event, seen: set<BucketKey>)
    requires Enabled(s, e) && !e.Expired? && !Takes(c, s, e)
    requires s.nodes[e.node].fallback.Keys <= seen && (e.Recorded? ==> e.key in seen) && |seen| <= c.maxFallbackKeys
    ensures var b := s.nodes[e.node].fallback;
            && Step(c, s, e).nodes[e.node].fallback == MemoryStep(b, e)
            && MemoryStep(b, e).Keys <= seen
  {
    hide Bump, BumpOk, OneReport;
    var b := s.nodes[e.node].fallback;
    SubsetSize(b.Keys, seen);
    if e.Recorded? && e.key !in b {
      SubsetSize(b.Keys + {e.key}, seen);
      assert |b.Keys + {e.key}| == |b| + 1;
    }
  }

  lemma OthersUntouched(c: Config, s: State, e: Event, i: nat)
    requires Enabled(s, e) && i < |s.nodes| && (e.Expired? || e.node != i)
    ensures Step(c, s, e).nodes[i] == s.nodes[i]
  {
    hide Record, Delete;
  }

  // --- no outage ---

  /** Redis answers every call, and nothing expires. */
  predicate Healthy(es: seq<Event>) {
    forall i :: 0 <= i < |es| ==>
      !es[i].Expired? && (es[i].Recorded? ==> es[i].pipe.Up?) && (es[i].Deleted? ==> es[i].del.Done?)
  }

  /**
    While Redis answers and less than 2^63 is reported for any counter, every breaker stays closed, no instance
    keeps anything to itself, and Redis alone is the in-memory store fed the calls of all instances.
  */
  lemma {:induction false} HealthyIsMemory(c: Config, s: State, es: seq<Event>, p: Cell)
    requires Start(s) && EnabledAll(s, es) && Healthy(es)
    requires forall q :: Totals(c, s, es, q).reported < TWO63
    ensures var t := Run(c, s, es);
            && (forall i :: 0 <= i < |t.nodes| ==> t.nodes[i] == FRESH)
            && Value(t.redis, p) == Count(MemoryRun(es), p.0, p.1) <= Totals(c, s, es, p).reported
  {
    hide Step, Entry, Add, Remove, Count;
    if es == [] {
      NothingCounted(p);
    } else {
      var prev, e := es[..|es| - 1], es[|es| - 1];
      var t := Run(c, s, prev);
      forall q ensures Totals(c, s, prev, q).reported <= Totals(c, s, es, q).reported {}
      HealthyIsMemory(c, s, prev, p);
      forall g
        ensures Value(t.redis, (e.key, g)) + Entry(c, t, e, (e.key, g)).reported < TWO63
        ensures 0 <= Value(t.redis, (e.key, g))
      {
        HealthyIsMemory(c, s, prev, (e.key, g));
      }
      HealthyStep(c, t, e, p, MemoryRun(prev));
    }
  }

  lemma NothingCounted(p: Cell)
    ensures Count(map[], p.0, p.1) == 0
  {}

  lemma HealthyStep(c: Config, s: State, e: Event, p: Cell, b: Buckets)
    requires Enabled(s, e) && Healthy([e]) && forall i :: 0 <= i < |s.nodes| ==> s.nodes[i] == FRESH
    requires Value(s.redis, p) == Count(b, p.0, p.1)
    requires forall g :: 0 <= Value(s.redis, (e.key, g))
                         && Value(s.redis, (e.key, g)) + Entry(c, s, e, (e.key, g)).reported < TWO63
    ensures Step(c, s, e).nodes == s.nodes
    ensures Value(Step(c, s, e).redis, p) == Count(MemoryStep(b, e), p.0, p.1)
              <= Value(s.redis, p) + Entry(c, s, e, p).reported
  {
    hide Bump, NonZero, Effective, BumpOk, OneReport, Entry, Add, Remove, Count;
    assert [e][0] == e && s.nodes[e.node] == FRESH;
    if e.Recorded? {
      forall g ensures Entry(c, s, e, (e.key, g)).reported == e.usage.Get(g) {
        RecordEntry(c, s, e, (e.key, g));
      }
      InRangeIsOk(s.redis, e.key, e.usage, e.pipe);
      RecordEntry(c, s, e, p);
      OneReportAt(s.redis, e.key, e.usage, e.pipe, p);
      BumpAt(s.redis, OneReport(e.key, e.usage), e.pipe, p);
      AddCounts(b, e.key, e.usage, p.0, p.1);
      assert p == (p.0, p.1);
    } else {
      DelAt(s.redis, e.key, p);
      DeleteEntry(c, s, e, p);
      AddCounts(b, e.key, UsageState(0, 0), p.0, p.1);
    }
  }

  /** The breaker of an instance is open in every state of the run. */
  predicate StaysOpen(c: Config, s: State, es: seq<Event>, i: nat)
    requires EnabledAll(s, es) && i < |s.nodes|
  {
    Run(c, s, es).nodes[i].tripped && (es == [] || StaysOpen(c, s, es[..|es| - 1], i))
  }

  /**
    A failed retry does not restart the retry interval. However many calls of either kind fail while the
    breaker is open, a call retries exactly if the interval has passed since the call that opened it; so
    after the first failed retry every call retries, until one succeeds.
  */
  lemma {:induction false} FailedRetriesStayDue(c: Config, s: State, es: seq<Event>, i: nat, now: int)
    requires EnabledAll(s, es) && i < |s.nodes| && StaysOpen(c, s, es, i)
    ensures var n := Run(c, s, es).nodes[i];
            && n.lastAttempt == s.nodes[i].lastAttempt
            && (Attempts(c, n, now) <==> now - s.nodes[i].lastAttempt >= c.retryInterval)
  {
    if es == [] {
    } else {
      var prev, e := es[..|es| - 1], es[|es| - 1];
      FailedRetriesStayDue(c, s, prev, i, now);
      OpenCallKeepsTime(c, Run(c, s, prev), e, i);
    }
  }

  lemma OpenCallKeepsTime(c: Config, s: State, e: Event, i: nat)
    requires Enabled(s, e) && i < |s.nodes| && s.nodes[i].tripped
    ensures Step(c, s, e).nodes[i].lastAttempt == s.nodes[i].lastAttempt
  {
    hide Bump, BumpOk, NonZero;
  }

  /** After a call that opens the breaker, its instance asks Redis again only once the interval has passed. */
  lemma OpeningStartsInterval(c: Config, s: State, e: Event, es: seq<Event>, now: int)
    requires Enabled(s, e) && !e.Expired? && !s.nodes[e.node].tripped && Step(c, s, e).nodes[e.node].tripped
    requires EnabledAll(Step(c, s, e), es) && StaysOpen(c, Step(c, s, e), es, e.node)
    ensures Attempts(c, Run(c, Step(c, s, e), es).nodes[e.node], now) <==> now - e.now >= c.retryInterval
  {
    hide Bump, BumpOk, NonZero;
    FailedRetriesStayDue(c, Step(c, s, e), es, e.node, now);
  }

  /** An open breaker closes exactly if a call of its instance is due and Redis takes it. */
  lemma ClosesIff(c: Config, s: State, e: Event, i: nat)
    requires Enabled(s, e) && i < |s.nodes| && s.nodes[i].tripped
    ensures !Step(c, s, e).nodes[i].tripped <==>
              && !e.Expired? && e.node == i && e.now - s.nodes[i].lastAttempt >= c.retryInterval
              && if e.Recorded? then BumpOk(s.redis, OneReport(e.key, e.usage), e.pipe) else e.del.Done?
  {
    hide Bump, BumpOk, NonZero;
  }

  /** The removal that ends an outage brings all outage counts of the removed bucket back. */
  lemma RecoveringDeleteKeepsOutageCounts(c: Config, s: State, e: Event, p: Cell)
    requires e.Deleted? && Enabled(s, e) && e.key == p.0 && e.del.Done? && e.flush.Up?
    requires s.nodes[e.node].tripped && Attempts(c, s.nodes[e.node], e.now)
    requires FallbackTotal(s.nodes, p) < TWO63
    ensures Held(Step(c, s, e), p) == FallbackTotal(s.nodes, p)
  {
    hide Bump, NonZero, Step;
    var n := s.nodes[e.node];
    StepBalances(c, s, e, p);
    FallbackTotalBounds(s.nodes, e.node, p);
    DelAt(s.redis, e.key, p);
    NonZeroAt(n.fallback, p);
  }

  /** Two calls suffice: a report that finds Redis down, and a removal that finds it up again. */
  lemma RemovedCountsComeBack(c: Config, k: BucketKey)
    requires c.retryInterval >= 0
    ensures var s := State(map[], [FRESH]);
            var es := [Recorded(0, k, UsageState(10, 3), 0, Down({}), Up), Deleted(0, k, c.retryInterval, Done, Up)];
            && EnabledAll(s, es)
            && Held(Run(c, s, es), (k, Allowed)) == 10
            && Count(MemoryRun(es), k, Allowed) == 0
  {
    var s := State(map[], [FRESH]);
    var record := Recorded(0, k, UsageState(10, 3), 0, Down({}), Up);
    var delete := Deleted(0, k, c.retryInterval, Done, Up);
    var t := Step(c, s, record);
    assert t.nodes == [Node(map[k := UsageState(10, 3)], true, 0)];
    assert FallbackTotal(t.nodes, (k, Allowed)) == 10 by {
      assert t.nodes[1..] == [];
    }
    RunOfTwo(c, s, record, delete);
    RecoveringDeleteKeepsOutageCounts(c, t, delete, (k, Allowed));
    AddCounts(MemoryStep(map[], record), k, UsageState(0, 0), k, Allowed);
  }
}
