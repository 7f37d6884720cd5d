/** What a stream has recorded over its whole life, in every interleaving. */
module Sessions {
  import opened Keys
  import opened Memory
  import opened Api
  import opened Protocol
  import opened Invariants
  import opened Messages

  /** The reports of all messages received, in order. */
  function Inbox(cs: seq<Choice>): seq<UsageReport> {
    if cs == [] then [] else Inbox(cs[..|cs| - 1]) + if cs[|cs| - 1].Recv? then cs[|cs| - 1].req.usages else []
  }

  /** Messages are still accepted or being worked on. */
  predicate IsOpen(st: Stream) {
    InServer(st) && !st.pc.Closing?
  }

  /** The named reports of the current message that are not recorded yet. */
  function Pending(st: Stream): seq<UsageReport> {
    match st.pc
    case Reporting(us, _) => WithBucket(us)
    case Counting(_, us, _) => WithBucket(us)
    case Gauging(_, us, _) => WithBucket(us)
    case Recording(_, us, _) => WithBucket(us)
    case _ => []
  }

  /** The next report is the one whose bucket is being subscribed to. */
  predicate NextIsNamed(st: Stream) {
    st.pc.Counting? || st.pc.Gauging? || st.pc.Recording? ==> st.pc.usages != [] && HasBucket(st.pc.usages[0])
  }

  /** While the stream is open, what it recorded and what is pending is what it received; later, a prefix. */
  ghost predicate Accounted(st: Stream, cs: seq<Choice>, es: seq<Effect>) {
    var all := Recorded(st.domain, WithBucket(Inbox(cs)));
    && RecordsIn(es) <= all && NextIsNamed(st)
    && (IsOpen(st) ==> RecordsIn(es) + Recorded(st.domain, Pending(st)) == all)
    && (IsOpen(st) && !st.bound ==> Inbox(cs) == [])
  }

  // --- lists ---

  lemma {:induction false} NamedAppend(a: seq<UsageReport>, b: seq<UsageReport>)
    ensures WithBucket(a + b) == WithBucket(a) + WithBucket(b)
  {
    hide HasBucket;
    if b == [] {
      assert a + b == a;
    } else {
      NamedAppend(a, b[..|b| - 1]);
      assert (a + b)[..|a + b| - 1] == a + b[..|b| - 1];
    }
  }

  lemma {:induction false} RecordedAppend(domain: string, a: seq<UsageReport>, b: seq<UsageReport>)
    ensures Recorded(domain, a + b) == Recorded(domain, a) + Recorded(domain, b)
  {
    hide CanonicalKey, DomainScopedKey;
    if b == [] {
      assert a + b == a;
    } else {
      RecordedAppend(domain, a, b[..|b| - 1]);
      assert (a + b)[..|a + b| - 1] == a + b[..|b| - 1];
    }
  }

  lemma InboxSnoc(cs: seq<Choice>, c: Choice)
    ensures Inbox(cs + [c]) == if c.Recv? then Inbox(cs) + c.req.usages else Inbox(cs)
  {
    assert (cs + [c])[..|cs + [c]| - 1] == cs;
  }

  lemma NamedOne(u: UsageReport)
    ensures WithBucket([u]) == if HasBucket(u) then [u] else []
  {
    hide HasBucket;
    assert [u][..0] == [] && WithBucket([]) == [];
  }

  lemma NamedFirst(us: seq<UsageReport>)
    requires us != []
    ensures WithBucket(us) == if HasBucket(us[0]) then [us[0]] + WithBucket(us[1..]) else WithBucket(us[1..])
  {
    hide HasBucket, WithBucket;
    NamedAppend([us[0]], us[1..]);
    NamedOne(us[0]);
    assert [us[0]] + us[1..] == us;
  }

  lemma RecordedOne(domain: string, u: UsageReport)
    ensures Recorded(domain, [u]) == [Record(DomainScopedKey(domain, CanonicalKey(u.id)), u.usage)]
  {
    RecordedSnoc(domain, [], u);
    assert [] + [u] == [u];
  }

  // --- one move ---

  lemma NothingRecorded(domain: string)
    ensures Recorded(domain, []) == [] && WithBucket([]) == []
  {}

  /** A message adds its reports to what has been received. */
  lemma InboxRecorded(domain: string, cs: seq<Choice>, req: Request, metric: Metric)
    ensures Recorded(domain, WithBucket(Inbox(cs + [Recv(req, metric)])))
         == Recorded(domain, WithBucket(Inbox(cs))) + Recorded(domain, WithBucket(req.usages))
  {
    hide Recorded, WithBucket, Inbox;
    InboxSnoc(cs, Recv(req, metric));
    NamedAppend(Inbox(cs), req.usages);
    RecordedAppend(domain, WithBucket(Inbox(cs)), WithBucket(req.usages));
  }

  /** Receiving only binds and starts on the reports. */
  lemma ReceiveShape(l: Limits, st: Stream, req: Request, metric: Metric)
    requires st.pc.Idle?
    ensures var st' := Receive(l, st, req, metric);
            && (st.bound ==> st'.domain == st.domain && st'.bound)
            && (st'.pc.Closing?
                || (st'.bound && Pending(st') == WithBucket(req.usages) && IsOpen(st') && NextIsNamed(st')))
  {
    hide WithBucket, HasBucket;
    NothingRecorded("");
  }

  lemma ClosedIsNamed(st: Stream)
    ensures st.pc.Closing? ==> !IsOpen(st) && NextIsNamed(st)
  {}

  /** Between messages nothing is pending, and before binding nothing was received. */
  lemma IdleAccounted(st: Stream, cs: seq<Choice>, es: seq<Effect>)
    requires st.pc.Idle? && Accounted(st, cs, es)
    ensures RecordsIn(es) == Recorded(st.domain, WithBucket(Inbox(cs)))
    ensures !st.bound ==> forall domain :: RecordsIn(es) == Recorded(domain, WithBucket(Inbox(cs))) == []
  {
    hide Recorded, RecordsIn, WithBucket, HasBucket, Inbox;
    NothingRecorded(st.domain);
    assert RecordsIn(es) + [] == RecordsIn(es);
    forall domain ensures Recorded(domain, []) == [] && WithBucket([]) == [] {
      NothingRecorded(domain);
    }
  }

  lemma ReceivingIsAccounted(l: Limits, st: Stream, req: Request, metric: Metric, cs: seq<Choice>, es: seq<Effect>)
    requires st.pc.Idle? && Accounted(st, cs, es)
    ensures Accounted(Receive(l, st, req, metric), cs + [Recv(req, metric)], es + [Nothing])
  {
    hide Recorded, RecordsIn, WithBucket, HasBucket, Inbox, Receive, Pending, IsOpen, NextIsNamed;
    var st' := Receive(l, st, req, metric);
    ReceiveShape(l, st, req, metric);
    EffectsSnoc(es, Nothing);
    InboxRecorded(st'.domain, cs, req, metric);
    IdleAccounted(st, cs, es);
    assert RecordsIn(es) == Recorded(st'.domain, WithBucket(Inbox(cs)));
    ClosedIsNamed(st');
  }

  lemma RecordedFirst(domain: string, us: seq<UsageReport>)
    requires us != [] && HasBucket(us[0])
    ensures Recorded(domain, WithBucket(us))
         == [Record(DomainScopedKey(domain, CanonicalKey(us[0].id)), us[0].usage)]
            + Recorded(domain, WithBucket(us[1..]))
  {
    hide Recorded, WithBucket, CanonicalKey, DomainScopedKey;
    NamedFirst(us);
    RecordedAppend(domain, [us[0]], WithBucket(us[1..]));
    RecordedOne(domain, us[0]);
  }

  lemma RecordingItsKey(l: Limits, st: Stream)
    requires StreamOk(l, st) && st.pc.Recording?
    ensures st.pc.usages != [] && Scoped(st, st.pc.key) == DomainScopedKey(st.domain, CanonicalKey(st.pc.usages[0].id))
  {
    hide DomainScopedKey, CanonicalKey, SubsOk;
  }

  lemma RecordingIsAccounted(l: Limits, st: Stream, cs: seq<Choice>, es: seq<Effect>)
    requires StreamOk(l, st) && st.pc.Recording? && Accounted(st, cs, es)
    ensures var us, rs := st.pc.usages, st.pc.reports;
            && us != []
            && Accounted(st.(pc := Reporting(us[1..], rs + [us[0]])), cs + [Go],
                         es + [Record(Scoped(st, st.pc.key), us[0].usage)])
  {
    hide StreamOk, Recorded, RecordsIn, WithBucket, HasBucket, Inbox, Scoped;
    RecordingItsKey(l, st);
    var us := st.pc.usages;
    var e := Record(Scoped(st, st.pc.key), us[0].usage);
    EffectsSnoc(es, e);
    InboxSnoc(cs, Go);
    RecordedFirst(st.domain, us);
    var done, rest := RecordsIn(es), Recorded(st.domain, WithBucket(us[1..]));
    assert done + ([e] + rest) == (done + [e]) + rest;
  }

  lemma TakingIsAccounted(l: Limits, st: Stream, cs: seq<Choice>, es: seq<Effect>)
    requires st.pc.Reporting? && st.pc.usages != [] && Accounted(st, cs, es)
    ensures Accounted(TakeUsage(l, st), cs + [Go], es + [Nothing])
  {
    hide Recorded, RecordsIn, WithBucket, HasBucket, Inbox, CanonicalKey, ValidBucket, TakeUsage;
    EffectsSnoc(es, Nothing);
    InboxSnoc(cs, Go);
    NamedFirst(st.pc.usages);
    TakeUsageCases(l, st);
  }

  /** Moves that neither receive nor record nor look at a report. */
  lemma OtherIsAccounted(st: Stream, st': Stream, cs: seq<Choice>, c: Choice, es: seq<Effect>, e: Effect)
    requires Accounted(st, cs, es) && !c.Recv? && !e.Record? && NextIsNamed(st')
    requires st'.domain == st.domain && st'.bound == st.bound
    requires IsOpen(st') ==> IsOpen(st) && Pending(st') == Pending(st)
    ensures Accounted(st', cs + [c], es + [e])
  {
    hide Recorded, RecordsIn, Pending, Inbox, WithBucket, IsOpen;
    EffectsSnoc(es, e);
    InboxSnoc(cs, c);
  }

  lemma MoveIsAccounted(l: Limits, st: Stream, c: Choice, last: bool, cs: seq<Choice>, es: seq<Effect>)
    requires StreamOk(l, st) && Accounted(st, cs, es) && Local(l, st, c, last).Some?
    ensures var (st', e) := Local(l, st, c, last).value;
            Accounted(st', cs + [c], es + [e])
  {
    hide StreamOk, Accounted, TakeUsage, Receive, Scoped, CanonicalKey;
    var (st', e) := Local(l, st, c, last).value;
    if st.pc.Idle? && c.Recv? {
      ReceivingIsAccounted(l, st, c.req, c.metric, cs, es);
    } else if st.pc.Reporting? && st.pc.usages != [] {
      TakingIsAccounted(l, st, cs, es);
    } else if st.pc.Recording? {
      RecordingIsAccounted(l, st, cs, es);
    } else {
      AccountedIsNamed(st, cs, es);
      OtherIsAccounted(st, st', cs, c, es, e);
    }
  }

  lemma AccountedIsNamed(st: Stream, cs: seq<Choice>, es: seq<Effect>)
    requires Accounted(st, cs, es)
    ensures NextIsNamed(st)
  {}

  // --- every run ---

  /** A stream that was never opened made no move. */
  lemma {:induction false} NeverOpened(l: Limits, ms: seq<Move>, sid: Sid)
    requires Run(l, ms).Some? && sid !in Run(l, ms).value.streams
    ensures Choices(ms, sid) == [] && EffectsOf(l, INITIAL, ms, sid) == []
  {
    hide Local, Apply;
    if ms == [] {
    } else {
      NeverOpened(l, ms[..|ms| - 1], sid);
    }
  }

  lemma {:induction false} RunIsAccounted(l: Limits, ms: seq<Move>, sid: Sid)
    requires Run(l, ms).Some? && sid in Run(l, ms).value.streams
    ensures Accounted(Run(l, ms).value.streams[sid], Choices(ms, sid), EffectsOf(l, INITIAL, ms, sid))
  {
    hide Accounted, Local, Apply, IsLast;
    var prev, m := ms[..|ms| - 1], ms[|ms| - 1];
    var t := Run(l, prev).value;
    if sid !in t.streams {
      NeverOpened(l, prev, sid);
      OpenedIsAccounted();
    } else {
      RunIsAccounted(l, prev, sid);
      if m.sid == sid {
        RunKeepsInv(l, prev);
        MoveIsAccounted(l, t.streams[sid], m.choice, IsLast(t.shared, t.streams[sid]), Choices(prev, sid),
                        EffectsOf(l, INITIAL, prev, sid));
      } else {
        assert Choices(ms, sid) == Choices(prev, sid);
        assert EffectsOf(l, INITIAL, ms, sid) == EffectsOf(l, INITIAL, prev, sid);
      }
    }
  }

  lemma OpenedIsAccounted()
    ensures Accounted(OPENED, [], [])
  {}

  /**
    In every reachable state, a stream has recorded a prefix of the usage in the reports that name a bucket, of
    all messages it received, each under its own bucket in the stream's domain; and between messages
    exactly all of it.
  */
  lemma StreamsRecordWhatTheyReceive(l: Limits, ms: seq<Move>, sid: Sid)
    requires Run(l, ms).Some? && sid in Run(l, ms).value.streams
    ensures var st, all := Run(l, ms).value.streams[sid], WithBucket(Inbox(Choices(ms, sid)));
            && RecordsIn(EffectsOf(l, INITIAL, ms, sid)) <= Recorded(st.domain, all)
            && (st.pc.Idle? ==> RecordsIn(EffectsOf(l, INITIAL, ms, sid)) == Recorded(st.domain, all))
  {
    hide RunFrom, Recorded, RecordsIn, WithBucket, Inbox, Choices, EffectsOf;
    RunIsAccounted(l, ms, sid);
    var st := Run(l, ms).value.streams[sid];
    if st.pc.Idle? {
      IdleAccounted(st, Choices(ms, sid), EffectsOf(l, INITIAL, ms, sid));
    }
  }
}
