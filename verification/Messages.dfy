/**
  What one message does, from receiving it to the next message or the end of the stream, whatever other
  streams do meanwhile. The law is stated on the request, the limits, the stream before the message, the
  engine's answer and the outcome of the send alone.
*/
module Messages {
  import opened Keys
  import opened Memory
  import opened Api
  import opened Protocol

  // ---------------------------------------------------------------------------------------------
  // The law
  // ---------------------------------------------------------------------------------------------

  /** The message names no domain on an unbound stream or another one on a bound stream, or has too many reports. */
  predicate Refused(l: Limits, st: Stream, req: Request) {
    || (if st.bound then req.domain != "" && req.domain != st.domain else req.domain == "")
    || (l.maxReportsPerMessage > 0 && |req.usages| > l.maxReportsPerMessage)
  }

  ghost function KeysOf(rs: seq<UsageReport>): set<BucketKey> {
    set r | r in rs :: CanonicalKey(r.id)
  }

  /** All ids are within the limits, and there is room for the subscriptions they need. */
  ghost predicate Admissible(l: Limits, subs: map<BucketKey, BucketId>, rs: seq<UsageReport>) {
    && (forall r :: r in rs ==> r.id.Some? && ValidBucket(l, r.id.value))
    && (l.maxBucketsPerStream > 0 ==>
          KeysOf(rs) <= subs.Keys || |subs.Keys + KeysOf(rs)| <= l.maxBucketsPerStream)
  }

  /** The subscriptions after some reports: the first id seen for a key stays. */
  ghost function Subscribed(subs: map<BucketKey, BucketId>, rs: seq<UsageReport>): map<BucketKey, BucketId>
    requires forall r :: r in rs ==> r.id.Some?
  {
    if rs == [] then subs
    else
      var before, id := Subscribed(subs, rs[..|rs| - 1]), rs[|rs| - 1].id;
      if CanonicalKey(id) in before then before else before[CanonicalKey(id) := id.value]
  }

  /** The usage of each report goes to its own bucket in the stream's domain, in order. */
  ghost function Recorded(domain: string, rs: seq<UsageReport>): seq<Effect> {
    if rs == [] then []
    else
      var r := rs[|rs| - 1];
      Recorded(domain, rs[..|rs| - 1]) + [Record(DomainScopedKey(domain, CanonicalKey(r.id)), r.usage)]
  }

  ghost function Abandoned(actions: seq<BucketAction>): set<BucketKey> {
    set a | a in actions && a.Abandon? :: CanonicalKey(a.id)
  }

  /** The records and the replies among some effects. */
  function RecordsIn(es: seq<Effect>): seq<Effect> {
    if es == [] then [] else RecordsIn(es[..|es| - 1]) + if es[|es| - 1].Record? then [es[|es| - 1]] else []
  }

  function RepliesIn(es: seq<Effect>): seq<Effect> {
    if es == [] then [] else RepliesIn(es[..|es| - 1]) + if es[|es| - 1].Reply? then [es[|es| - 1]] else []
  }

  /** The first message that names a domain binds the stream to it, and to the classifier's label for it. */
  predicate BoundBy(st0: Stream, req: Request, metric: Metric, st: Stream) {
    && (st.bound <==> st0.bound || req.domain != "")
    && (st.bound ==> st.domain == (if st0.bound then st0.domain else req.domain)
                     && st.metric == if st0.bound then st0.metric else metric)
  }

  /**
    A message takes the stream from `st0` to `st` with effects `es`. It succeeds exactly if it is not refused
    and either has no reports, or all its ids are admissible, the engine answers, and the answer is
    empty or can be sent. Its reports are then recorded in order; otherwise those before the first that
    is not admissible.
  */
  ghost predicate MessageLaw(l: Limits, st0: Stream, req: Request, metric: Metric, engine: Engine, sent: bool,
                             st: Stream, es: seq<Effect>)
  {
    var named := WithBucket(req.usages);
    && BoundBy(st0, req, metric, st)
    && if Refused(l, st0, req) || req.usages == [] then
         && (st.pc.Idle? <==> !Refused(l, st0, req))
         && st.subs == st0.subs && RecordsIn(es) == RepliesIn(es) == []
       else if Admissible(l, st0.subs, named) then
         var answer := engine(st.domain, named);
         && (st.pc.Idle? <==> answer.Some? && (answer.value == [] || sent))
         && st.subs == Subscribed(st0.subs, named) - (if answer.Some? then Abandoned(answer.value) else {})
         && RecordsIn(es) == Recorded(st.domain, named)
         && RepliesIn(es) == if answer.Some? && answer.value != [] then [Reply(answer.value)] else []
       else
         && !st.pc.Idle? && RepliesIn(es) == []
         && exists n :: 0 <= n < |named| && StopsAt(l, st0, named, n, st, es)
  }

  /** The report at `n` is the first that is not admissible; those before it were recorded. */
  ghost predicate StopsAt(l: Limits, st0: Stream, named: seq<UsageReport>, n: int, st: Stream, es: seq<Effect>)
    requires 0 <= n < |named|
  {
    && Admissible(l, st0.subs, named[..n]) && !Admissible(l, st0.subs, named[..n + 1])
    && st.subs == Subscribed(st0.subs, named[..n]) && RecordsIn(es) == Recorded(st.domain, named[..n])
  }

  // ---------------------------------------------------------------------------------------------
  // Facts about the notions of the law
  // ---------------------------------------------------------------------------------------------

  lemma KeysOfSnoc(rs: seq<UsageReport>, r: UsageReport)
    ensures KeysOf(rs + [r]) == KeysOf(rs) + {CanonicalKey(r.id)}
  {
    hide CanonicalKey;
    assert forall x :: x in rs + [r] <==> x in rs || x == r;
    assert r in rs + [r];
  }

  lemma SubscribedSnoc(subs: map<BucketKey, BucketId>, rs: seq<UsageReport>, r: UsageReport)
    requires forall x :: x in rs + [r] ==> x.id.Some?
    ensures (forall x :: x in rs ==> x.id.Some?) && r.id.Some?
    ensures var before := Subscribed(subs, rs);
            Subscribed(subs, rs + [r])
              == if CanonicalKey(r.id) in before then before else before[CanonicalKey(r.id) := r.id.value]
  {
    hide CanonicalKey;
    assert forall x :: x in rs ==> x in rs + [r];
    assert r in rs + [r];
    assert (rs + [r])[..|rs + [r]| - 1] == rs;
  }

  lemma {:induction false} SubscribedKeys(subs: map<BucketKey, BucketId>, rs: seq<UsageReport>)
    requires forall r :: r in rs ==> r.id.Some?
    ensures Subscribed(subs, rs).Keys == subs.Keys + KeysOf(rs)
  {
    hide CanonicalKey;
    if rs == [] {
    } else {
      var prev, r := rs[..|rs| - 1], rs[|rs| - 1];
      SubscribedKeys(subs, prev);
      KeysOfSnoc(prev, r);
      assert rs == prev + [r];
    }
  }

  lemma OneMoreSize(s: set<BucketKey>, key: BucketKey)
    ensures |s + {key}| == |s| + if key in s then 0 else 1
  {
    if key in s {
      assert s + {key} == s;
    }
  }

  /** Whether one more key fits can be read off the keys so far. */
  lemma RoomForOneMore(subs: set<BucketKey>, ks: set<BucketKey>, key: BucketKey, max: int)
    requires ks <= subs || |subs + ks| <= max
    ensures (ks + {key} <= subs || |subs + (ks + {key})| <= max) <==> key in subs + ks || |subs + ks| < max
  {
    var all := subs + ks;
    OneMoreSize(all, key);
    assert subs + (ks + {key}) == all + {key};
    assert ks <= subs ==> all == subs;
    assert ks + {key} <= subs <==> ks <= subs && key in subs by {
      assert key in ks + {key} && ks <= ks + {key};
    }
  }

  /** One more report is admissible exactly if its id is valid and is subscribed to or finds room. */
  lemma AdmissibleSnoc(l: Limits, subs: map<BucketKey, BucketId>, rs: seq<UsageReport>, r: UsageReport)
    requires Admissible(l, subs, rs) && r.id.Some?
    ensures var now := Subscribed(subs, rs);
            Admissible(l, subs, rs + [r]) <==>
              && ValidBucket(l, r.id.value)
              && (CanonicalKey(r.id) in now || !(l.maxBucketsPerStream > 0 && |now| >= l.maxBucketsPerStream))
  {
    hide CanonicalKey, ValidBucket, KeysOf, Subscribed;
    var now := Subscribed(subs, rs);
    KeysOfSnoc(rs, r);
    SubscribedKeys(subs, rs);
    assert forall x :: x in rs + [r] <==> x in rs || x == r;
    assert |now| == |now.Keys|;
    if l.maxBucketsPerStream > 0 {
      RoomForOneMore(subs.Keys, KeysOf(rs), CanonicalKey(r.id), l.maxBucketsPerStream);
    }
  }

  lemma AdmissiblePrefix(l: Limits, subs: map<BucketKey, BucketId>, rs: seq<UsageReport>, n: nat)
    requires Admissible(l, subs, rs) && n <= |rs|
    ensures Admissible(l, subs, rs[..n])
  {
    hide CanonicalKey, ValidBucket;
    assert forall x :: x in rs[..n] ==> x in rs;
    assert KeysOf(rs[..n]) <= KeysOf(rs);
    SubsetSize(subs.Keys + KeysOf(rs[..n]), subs.Keys + KeysOf(rs));
  }

  lemma EffectsSnoc(es: seq<Effect>, e: Effect)
    ensures RecordsIn(es + [e]) == if e.Record? then RecordsIn(es) + [e] else RecordsIn(es)
    ensures RepliesIn(es + [e]) == if e.Reply? then RepliesIn(es) + [e] else RepliesIn(es)
  {
    assert (es + [e])[..|es + [e]| - 1] == es;
  }

  lemma RecordedSnoc(domain: string, rs: seq<UsageReport>, r: UsageReport)
    ensures Recorded(domain, rs + [r])
         == Recorded(domain, rs) + [Record(DomainScopedKey(domain, CanonicalKey(r.id)), r.usage)]
  {
    hide CanonicalKey, DomainScopedKey;
    assert (rs + [r])[..|rs + [r]| - 1] == rs;
  }

  /** Reports are named in the order in which they come. */
  lemma {:induction false} NamedPrefix(us: seq<UsageReport>, i: nat)
    requires i <= |us|
    ensures WithBucket(us[..i]) <= WithBucket(us)
    ensures i < |us| ==> WithBucket(us[..i + 1]) == WithBucket(us[..i]) + if HasBucket(us[i]) then [us[i]] else []
  {
    hide HasBucket;
    if i < |us| {
      assert us[..i + 1][..i] == us[..i];
    }
    if i == |us| {
      assert us[..i] == us;
    } else {
      NamedPrefix(us[..|us| - 1], i);
      assert us[..|us| - 1][..i] == us[..i];
    }
  }

  // ---------------------------------------------------------------------------------------------
  // On the way
  // ---------------------------------------------------------------------------------------------

  /** The message is being worked on: `us` are the reports still to come, `rs` those named before them. */
  ghost predicate Underway(l: Limits, st0: Stream, req: Request, metric: Metric, st: Stream, us: seq<UsageReport>,
                           rs: seq<UsageReport>)
  {
    && !Refused(l, st0, req) && req.usages != [] && st.bound && BoundBy(st0, req, metric, st)
    && |us| <= |req.usages| && us == req.usages[|req.usages| - |us|..]
    && rs == WithBucket(req.usages[..|req.usages| - |us|])
  }

  /** Some reports are subscribed to, and those of `done` recorded. */
  ghost predicate Taken(l: Limits, st0: Stream, st: Stream, rs: seq<UsageReport>, done: seq<UsageReport>,
                        es: seq<Effect>)
  {
    && Admissible(l, st0.subs, rs) && st.subs == Subscribed(st0.subs, rs)
    && RecordsIn(es) == Recorded(st.domain, done) && RepliesIn(es) == []
  }

  /** The engine has answered with `reply`, of which `actions` are still to be applied. */
  ghost predicate Answering(l: Limits, st0: Stream, req: Request, metric: Metric, engine: Engine, st: Stream,
                            actions: seq<BucketAction>, reply: seq<BucketAction>, es: seq<Effect>)
  {
    var named := WithBucket(req.usages);
    && Underway(l, st0, req, metric, st, [], named) && Admissible(l, st0.subs, named)
    && engine(st.domain, named) == Some(reply) && reply != []
    && |actions| <= |reply| && actions == reply[|reply| - |actions|..]
    && st.subs == Subscribed(st0.subs, named) - Abandoned(reply[..|reply| - |actions|])
    && RecordsIn(es) == Recorded(st.domain, named) && RepliesIn(es) == []
  }

  ghost predicate Midway(l: Limits, st0: Stream, req: Request, metric: Metric, engine: Engine, sent: bool, st: Stream,
                         es: seq<Effect>)
  {
    match st.pc
    case Idle => MessageLaw(l, st0, req, metric, engine, sent, st, es)
    case Closing => MessageLaw(l, st0, req, metric, engine, sent, st, es)
    case Reporting(us, rs) => Underway(l, st0, req, metric, st, us, rs) && Taken(l, st0, st, rs, rs, es)
    case Counting(key, us, rs) => Recordable(l, st0, req, metric, st, key, us, rs, es)
    case Gauging(key, us, rs) => Recordable(l, st0, req, metric, st, key, us, rs, es)
    case Recording(key, us, rs) => Recordable(l, st0, req, metric, st, key, us, rs, es)
    case Acting(actions, reply) => Answering(l, st0, req, metric, engine, st, actions, reply, es)
    case Uncounting(_, actions, reply) => Answering(l, st0, req, metric, engine, st, actions, reply, es)
    case Removing(_, actions, reply) => Answering(l, st0, req, metric, engine, st, actions, reply, es)
    case Ungauging(_, actions, reply) => Answering(l, st0, req, metric, engine, st, actions, reply, es)
    case _ => true
  }

  /** The next report is subscribed to and waits to be recorded. */
  ghost predicate Recordable(l: Limits, st0: Stream, req: Request, metric: Metric, st: Stream, key: BucketKey,
                             us: seq<UsageReport>, rs: seq<UsageReport>, es: seq<Effect>)
  {
    && Underway(l, st0, req, metric, st, us, rs) && us != [] && HasBucket(us[0]) && key == CanonicalKey(us[0].id)
    && Taken(l, st0, st, rs + [us[0]], rs, es)
  }

  lemma ReceiveStarts(l: Limits, st0: Stream, req: Request, metric: Metric, engine: Engine, sent: bool)
    requires st0.pc.Idle?
    ensures Midway(l, st0, req, metric, engine, sent, Receive(l, st0, req, metric), [Nothing])
  {
    hide Admissible, StopsAt, Abandoned, KeysOf;
    EffectsSnoc([], Nothing);
    assert [] + [Nothing] == [Nothing];
    assert req.usages[..0] == [] && req.usages[0..] == req.usages;
    NothingIsAdmissible(l, st0.subs);
  }

  lemma NothingIsAdmissible(l: Limits, subs: map<BucketKey, BucketId>)
    ensures Admissible(l, subs, []) && Subscribed(subs, []) == subs
  {
    assert KeysOf([]) == {};
  }

  /** A report that names no bucket is passed over. */
  lemma PassesOver(l: Limits, st0: Stream, req: Request, metric: Metric, st: Stream, us: seq<UsageReport>,
                   rs: seq<UsageReport>)
    requires Underway(l, st0, req, metric, st, us, rs) && us != [] && !HasBucket(us[0])
    ensures Underway(l, st0, req, metric, st, us[1..], rs)
  {
    hide HasBucket, WithBucket, Refused, BoundBy;
    var i := |req.usages| - |us|;
    NamedPrefix(req.usages, i);
    assert req.usages[i] == us[0] && us[1..] == req.usages[i + 1..];
  }

  /** A report that names one comes next among the named. */
  lemma NamesNext(l: Limits, st0: Stream, req: Request, metric: Metric, st: Stream, us: seq<UsageReport>,
                  rs: seq<UsageReport>)
    requires Underway(l, st0, req, metric, st, us, rs) && us != [] && HasBucket(us[0])
    ensures rs + [us[0]] <= WithBucket(req.usages)
    ensures Underway(l, st0, req, metric, st, us[1..], rs + [us[0]])
  {
    hide HasBucket, WithBucket, Refused, BoundBy;
    var i := |req.usages| - |us|;
    NamedPrefix(req.usages, i);
    NamedPrefix(req.usages, i + 1);
    assert req.usages[i] == us[0] && us[1..] == req.usages[i + 1..];
  }

  /** The subscription check, case by case. */
  lemma TakeUsageCases(l: Limits, st: Stream)
    requires st.pc.Reporting? && st.pc.usages != []
    ensures var us, rs, key := st.pc.usages, st.pc.reports, CanonicalKey(st.pc.usages[0].id);
            var room := key in st.subs || !(l.maxBucketsPerStream > 0 && |st.subs| >= l.maxBucketsPerStream);
            TakeUsage(l, st)
              == if !HasBucket(us[0]) then st.(pc := Reporting(us[1..], rs))
                 else if !ValidBucket(l, us[0].id.value) || !room then st.(pc := Closing)
                 else if key in st.subs then st.(pc := Recording(key, us, rs))
                 else st.(subs := st.subs[key := us[0].id.value], pc := Counting(key, us, rs))
  {
    hide KeyOf, ValidBucket;
  }

  /** An admissible report is subscribed to. */
  lemma Keeps(l: Limits, st0: Stream, req: Request, metric: Metric, st: Stream, es: seq<Effect>)
    requires st.pc.Reporting? && st.pc.usages != [] && HasBucket(st.pc.usages[0])
    requires Underway(l, st0, req, metric, st, st.pc.usages, st.pc.reports)
    requires Taken(l, st0, st, st.pc.reports, st.pc.reports, es)
    requires Admissible(l, st0.subs, st.pc.reports + [st.pc.usages[0]])
    ensures var us, rs, key := st.pc.usages, st.pc.reports, CanonicalKey(st.pc.usages[0].id);
            var st' := TakeUsage(l, st);
            && st'.pc == (if key in st.subs then Recording(key, us, rs) else Counting(key, us, rs))
            && Recordable(l, st0, req, metric, st', key, us, rs, es + [Nothing])
  {
    hide TakeUsage, Admissible, Subscribed, Recorded, CanonicalKey, ValidBucket, RecordsIn, RepliesIn, Refused,
         WithBucket;
    var u, rs := st.pc.usages[0], st.pc.reports;
    EffectsSnoc(es, Nothing);
    TakeUsageCases(l, st);
    AdmissibleSnoc(l, st0.subs, rs, u);
    AllNamed(l, st0.subs, rs, u);
    SubscribedSnoc(st0.subs, rs, u);
  }

  lemma TakesUsage(l: Limits, st0: Stream, req: Request, metric: Metric, engine: Engine, sent: bool, st: Stream,
                   es: seq<Effect>)
    requires st.pc.Reporting? && st.pc.usages != [] && Midway(l, st0, req, metric, engine, sent, st, es)
    ensures Midway(l, st0, req, metric, engine, sent, TakeUsage(l, st), es + [Nothing])
  {
    hide TakeUsage, Admissible, CanonicalKey, ValidBucket, MessageLaw, HasBucket, Recordable, Taken, Underway;
    var us, rs := st.pc.usages, st.pc.reports;
    if !HasBucket(us[0]) {
      TakeUsageCases(l, st);
      PassesOver(l, st0, req, metric, st, us, rs);
      SameUnderway(l, st0, req, metric, st, us[1..], rs, Reporting(us[1..], rs), es);
    } else if Admissible(l, st0.subs, rs + [us[0]]) {
      Keeps(l, st0, req, metric, st, es);
    } else {
      Turned(l, st0, req, metric, st, es);
      NamesNext(l, st0, req, metric, st, us, rs);
      Stopped(l, st0, req, metric, engine, sent, st, rs, us[0], es);
    }
  }

  /** The position does not matter, and neither does a move without effect. */
  lemma SameUnderway(l: Limits, st0: Stream, req: Request, metric: Metric, st: Stream, us: seq<UsageReport>,
                     rs: seq<UsageReport>, pc: Pc, es: seq<Effect>)
    requires Underway(l, st0, req, metric, st, us, rs) && Taken(l, st0, st, rs, rs, es)
    ensures Underway(l, st0, req, metric, st.(pc := pc), us, rs) && Taken(l, st0, st.(pc := pc), rs, rs, es + [Nothing])
  {
    hide Admissible, Subscribed, Recorded, RecordsIn, RepliesIn, Refused, WithBucket;
    EffectsSnoc(es, Nothing);
  }

  /** A report that is not admissible closes the stream. */
  lemma Turned(l: Limits, st0: Stream, req: Request, metric: Metric, st: Stream, es: seq<Effect>)
    requires st.pc.Reporting? && st.pc.usages != [] && HasBucket(st.pc.usages[0])
    requires Underway(l, st0, req, metric, st, st.pc.usages, st.pc.reports)
    requires Taken(l, st0, st, st.pc.reports, st.pc.reports, es)
    requires !Admissible(l, st0.subs, st.pc.reports + [st.pc.usages[0]])
    ensures TakeUsage(l, st) == st.(pc := Closing)
    ensures !Refused(l, st0, req) && req.usages != [] && BoundBy(st0, req, metric, st)
  {
    hide TakeUsage, Admissible, Subscribed, Recorded, CanonicalKey, ValidBucket, RecordsIn, RepliesIn, Refused,
         WithBucket;
    TakeUsageCases(l, st);
    AdmissibleSnoc(l, st0.subs, st.pc.reports, st.pc.usages[0]);
  }

  lemma AllNamed(l: Limits, subs: map<BucketKey, BucketId>, rs: seq<UsageReport>, u: UsageReport)
    requires Admissible(l, subs, rs + [u])
    ensures forall r :: r in rs + [u] ==> r.id.Some?
  {}

  /** A report that is not admissible closes the stream, and the message is not admissible as a whole. */
  lemma Stopped(l: Limits, st0: Stream, req: Request, metric: Metric, engine: Engine, sent: bool, st: Stream,
                rs: seq<UsageReport>, u: UsageReport, es: seq<Effect>)
    requires !Refused(l, st0, req) && req.usages != [] && BoundBy(st0, req, metric, st)
    requires Taken(l, st0, st, rs, rs, es) && !Admissible(l, st0.subs, rs + [u])
    requires rs + [u] <= WithBucket(req.usages)
    ensures MessageLaw(l, st0, req, metric, engine, sent, st.(pc := Closing), es + [Nothing])
  {
    hide Admissible, Subscribed, Recorded, RecordsIn, RepliesIn, Refused, Abandoned, WithBucket;
    var named, n := WithBucket(req.usages), |rs|;
    assert named[..n] == rs && named[..n + 1] == rs + [u];
    EffectsSnoc(es, Nothing);
    if Admissible(l, st0.subs, named) {
      AdmissiblePrefix(l, st0.subs, named, n + 1);
    }
    assert StopsAt(l, st0, named, n, st.(pc := Closing), es + [Nothing]);
  }

  /** The waiting report is recorded. */
  lemma Records(l: Limits, st0: Stream, req: Request, metric: Metric, st: Stream, es: seq<Effect>)
    requires st.pc.Recording?
    requires Recordable(l, st0, req, metric, st, st.pc.key, st.pc.usages, st.pc.reports, es)
    ensures var us, rs := st.pc.usages, st.pc.reports;
            var st' := st.(pc := Reporting(us[1..], rs + [us[0]]));
            && Underway(l, st0, req, metric, st', us[1..], rs + [us[0]])
            && Taken(l, st0, st', rs + [us[0]], rs + [us[0]], es + [Record(Scoped(st, st.pc.key), us[0].usage)])
  {
    hide Admissible, Subscribed, Recorded, CanonicalKey, DomainScopedKey, RecordsIn, RepliesIn, Refused, WithBucket,
         HasBucket;
    var us, rs := st.pc.usages, st.pc.reports;
    EffectsSnoc(es, Record(Scoped(st, st.pc.key), us[0].usage));
    RecordedSnoc(st.domain, rs, us[0]);
    NamesNext(l, st0, req, metric, st, us, rs);
  }

  /** The engine is asked about all named reports. */
  lemma Asks(l: Limits, st0: Stream, req: Request, metric: Metric, engine: Engine, sent: bool, st: Stream,
             es: seq<Effect>)
    requires st.pc.Reporting? && st.pc.usages == [] && Midway(l, st0, req, metric, engine, sent, st, es)
    ensures Midway(l, st0, req, metric, engine, sent, Answer(st, engine), es + [Nothing])
  {
    hide Admissible, Subscribed, Recorded, RecordsIn, RepliesIn, Refused, WithBucket;
    EffectsSnoc(es, Nothing);
    assert req.usages[..|req.usages|] == req.usages;
    NothingAbandoned();
    forall reply: seq<BucketAction> ensures reply[..0] == [] && reply[0..] == reply {}
    assert st.subs - {} == st.subs;
  }

  lemma NothingAbandoned()
    ensures Abandoned([]) == {}
  {}

  lemma AbandonedSnoc(actions: seq<BucketAction>, a: BucketAction)
    ensures Abandoned(actions + [a]) == Abandoned(actions) + if a.Abandon? then {CanonicalKey(a.id)} else {}
  {
    hide CanonicalKey;
    assert forall x :: x in actions + [a] <==> x in actions || x == a;
    assert a in actions + [a];
  }

  lemma Applies(l: Limits, st0: Stream, req: Request, metric: Metric, engine: Engine, sent: bool, st: Stream,
                es: seq<Effect>)
    requires st.pc.Acting? && st.pc.actions != [] && Midway(l, st0, req, metric, engine, sent, st, es)
    ensures Midway(l, st0, req, metric, engine, sent, TakeAction(st), es + [Nothing])
  {
    hide Admissible, Subscribed, Recorded, RecordsIn, RepliesIn, Refused, WithBucket, CanonicalKey, Abandoned;
    var actions, reply := st.pc.actions, st.pc.reply;
    var i := |reply| - |actions|;
    EffectsSnoc(es, Nothing);
    AbandonedSnoc(reply[..i], reply[i]);
    assert reply[..i + 1] == reply[..i] + [reply[i]] && actions[0] == reply[i] && actions[1..] == reply[i + 1..];
  }

  /** The reply is sent, or cannot be. */
  lemma Sends(l: Limits, st0: Stream, req: Request, metric: Metric, engine: Engine, sent: bool, st: Stream,
              es: seq<Effect>)
    requires st.pc.Acting? && st.pc.actions == [] && Midway(l, st0, req, metric, engine, sent, st, es)
    ensures Midway(l, st0, req, metric, engine, sent, st.(pc := if sent then Idle else Closing),
                   es + [Reply(st.pc.reply)])
  {
    hide Admissible, Subscribed, Recorded, RecordsIn, RepliesIn, Refused, WithBucket, Abandoned;
    EffectsSnoc(es, Reply(st.pc.reply));
    assert st.pc.reply[..|st.pc.reply|] == st.pc.reply;
  }

  /** Counting and gauging change nothing the law speaks of. */
  lemma Quietly(l: Limits, st0: Stream, req: Request, metric: Metric, engine: Engine, st: Stream, pc: Pc,
                es: seq<Effect>, e: Effect)
    requires !e.Record? && !e.Reply?
    ensures forall key, us, rs | Recordable(l, st0, req, metric, st, key, us, rs, es) ::
              Recordable(l, st0, req, metric, st.(pc := pc), key, us, rs, es + [e])
    ensures forall actions, reply | Answering(l, st0, req, metric, engine, st, actions, reply, es) ::
              Answering(l, st0, req, metric, engine, st.(pc := pc), actions, reply, es + [e])
  {
    hide Admissible, Subscribed, Recorded, CanonicalKey, RecordsIn, RepliesIn, Refused, WithBucket, HasBucket,
         Abandoned;
    EffectsSnoc(es, e);
  }

  /** Every move of the stream while it works on the message. */
  lemma MoveKeepsMidway(l: Limits, st0: Stream, req: Request, metric: Metric, engine: Engine, sent: bool, st: Stream,
                        es: seq<Effect>, c: Choice, last: bool)
    requires Midway(l, st0, req, metric, engine, sent, st, es)
    requires c.Go? || c == Consult(engine) || c == Send(sent)
    requires Local(l, st, c, last).Some?
    ensures var (st', e) := Local(l, st, c, last).value;
            Midway(l, st0, req, metric, engine, sent, st', es + [e])
  {
    hide MessageLaw, Underway, Taken, Recordable, Answering, TakeUsage, TakeAction, Answer, Scoped;
    var (st', e) := Local(l, st, c, last).value;
    match st.pc
    case Reporting(us, _) =>
      if us == [] {
        Asks(l, st0, req, metric, engine, sent, st, es);
      } else {
        TakesUsage(l, st0, req, metric, engine, sent, st, es);
      }
    case Recording(_, _, _) => Records(l, st0, req, metric, st, es);
    case Acting(actions, _) =>
      if actions == [] {
        Sends(l, st0, req, metric, engine, sent, st, es);
      } else {
        Applies(l, st0, req, metric, engine, sent, st, es);
      }
    case _ =>
      if !e.Record? && !e.Reply? {
        Quietly(l, st0, req, metric, engine, st, st'.pc, es, e);
      }
  }

  // ---------------------------------------------------------------------------------------------
  // Any interleaving
  // ---------------------------------------------------------------------------------------------

  /** What the environment decided at the moves of one stream, and what those moves did. */
  function Choices(ms: seq<Move>, sid: Sid): seq<Choice> {
    if ms == [] then []
    else
      var m := ms[|ms| - 1];
      Choices(ms[..|ms| - 1], sid) + if m.Act? && m.sid == sid then [m.choice] else []
  }

  ghost function EffectsOf(l: Limits, s: State, ms: seq<Move>, sid: Sid): seq<Effect>
    requires RunFrom(l, s, ms).Some?
  {
    if ms == [] then []
    else
      var m, log := ms[|ms| - 1], RunFrom(l, s, ms).value.log;
      EffectsOf(l, s, ms[..|ms| - 1], sid) + if m.Act? && m.sid == sid then [log[|log| - 1]] else []
  }

  /** One message: it is received, and the engine and the send answer as given. */
  ghost predicate OneMessage(cs: seq<Choice>, req: Request, metric: Metric, engine: Engine, sent: bool) {
    && cs != [] && cs[0] == Recv(req, metric)
    && forall i :: 1 <= i < |cs| ==> cs[i].Go? || cs[i] == Consult(engine) || cs[i] == Send(sent)
  }

  /** A stream that made no move is where it was. */
  lemma {:induction false} Unmoved(l: Limits, s: State, ms: seq<Move>, sid: Sid)
    requires sid in s.streams && RunFrom(l, s, ms).Some?
    ensures sid in RunFrom(l, s, ms).value.streams
    ensures Choices(ms, sid) == [] ==>
              RunFrom(l, s, ms).value.streams[sid] == s.streams[sid] && EffectsOf(l, s, ms, sid) == []
  {
    hide Local, Apply;
    if ms == [] {
    } else {
      Unmoved(l, s, ms[..|ms| - 1], sid);
    }
  }

  lemma {:induction false} RunIsMidway(l: Limits, s: State, ms: seq<Move>, sid: Sid, req: Request, metric: Metric,
                                       engine: Engine, sent: bool)
    requires sid in s.streams && s.streams[sid].pc.Idle? && RunFrom(l, s, ms).Some?
    requires OneMessage(Choices(ms, sid), req, metric, engine, sent)
    ensures sid in RunFrom(l, s, ms).value.streams
    ensures Midway(l, s.streams[sid], req, metric, engine, sent, RunFrom(l, s, ms).value.streams[sid],
                   EffectsOf(l, s, ms, sid))
  {
    hide Midway, Local, Apply, IsLast;
    var prev, m, st0 := ms[..|ms| - 1], ms[|ms| - 1], s.streams[sid];
    var t, cs := RunFrom(l, s, prev).value, Choices(prev, sid);
    Unmoved(l, s, prev, sid);
    var last := IsLast(t.shared, t.streams[sid]);
    if !(m.Act? && m.sid == sid) {
      assert Choices(ms, sid) == cs;
      RunIsMidway(l, s, prev, sid, req, metric, engine, sent);
      assert EffectsOf(l, s, ms, sid) == EffectsOf(l, s, prev, sid);
    } else if cs == [] {
      assert Choices(ms, sid)[0] == m.choice;
      Received(l, st0, req, metric, last);
      ReceiveStarts(l, st0, req, metric, engine, sent);
      assert EffectsOf(l, s, ms, sid) == [Nothing];
    } else {
      assert Choices(ms, sid)[|cs|] == m.choice && Choices(ms, sid)[..|cs|] == cs;
      RunIsMidway(l, s, prev, sid, req, metric, engine, sent);
      MoveKeepsMidway(l, st0, req, metric, engine, sent, t.streams[sid], EffectsOf(l, s, prev, sid), m.choice, last);
    }
  }

  lemma Received(l: Limits, st: Stream, req: Request, metric: Metric, last: bool)
    requires st.pc.Idle?
    ensures Local(l, st, Recv(req, metric), last) == Some((Receive(l, st, req, metric), Nothing))
  {}

  /** In any interleaving, between receiving a message and the next, or closing, the law holds. */
  lemma EveryMessageIsLawful(l: Limits, s: State, ms: seq<Move>, sid: Sid, req: Request, metric: Metric,
                             engine: Engine, sent: bool)
    requires sid in s.streams && s.streams[sid].pc.Idle? && RunFrom(l, s, ms).Some?
    requires OneMessage(Choices(ms, sid), req, metric, engine, sent)
    ensures sid in RunFrom(l, s, ms).value.streams
    ensures var st := RunFrom(l, s, ms).value.streams[sid];
            st.pc.Idle? || st.pc.Closing? ==>
              MessageLaw(l, s.streams[sid], req, metric, engine, sent, st, EffectsOf(l, s, ms, sid))
  {
    hide MessageLaw, RunFrom;
    RunIsMidway(l, s, ms, sid, req, metric, engine, sent);
  }
}
