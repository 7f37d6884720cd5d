/** The metric-label classifier (internal/metrics/domain.go). */
module Classifier {
  import opened Keys

  const UNKNOWN_DOMAIN := "__unknown__"
  const DEFAULT_MAX_DOMAINS: nat := 100

  /** What is used of the Go libraries: whether a regular expression compiles and matches, and strings.ToUpper. */
  datatype Lib = Lib(compiles: string -> bool, matches: (string, string) -> bool, toUpper: string -> string)

  /** A classifier as built: its compiled patterns and its cap. */
  datatype Spec = Spec(patterns: seq<string>, maxDomains: nat)

  function NonEmpty(ps: seq<string>): seq<string> {
    if ps == [] then [] else (if ps[0] == "" then [] else [ps[0]]) + NonEmpty(ps[1..])
  }

  lemma {:induction false} NonEmptyAppend(a: seq<string>, b: seq<string>)
    ensures NonEmpty(a + b) == NonEmpty(a) + NonEmpty(b)
  {
    if a == [] {
      assert a + b == b;
    } else {
      assert (a + b)[1..] == a[1..] + b;
      NonEmptyAppend(a[1..], b);
    }
  }

  lemma {:induction false} NonEmptyKeeps(ps: seq<string>, p: string)
    ensures p in NonEmpty(ps) <==> p in ps && p != ""
  {
    if ps == [] {
    } else {
      NonEmptyKeeps(ps[1..], p);
    }
  }

  /** The classifier built from a pattern list: an error if a non-empty pattern does not compile. */
  function Built(lib: Lib, patterns: seq<string>, maxDomains: int): Option<Spec> {
    if forall p :: p in NonEmpty(patterns) ==> lib.compiles(p)
    then Some(Spec(NonEmpty(patterns), if maxDomains <= 0 then DEFAULT_MAX_DOMAINS else maxDomains))
    else None
  }

  method NewDomainClassifier(lib: Lib, patterns: seq<string>, maxDomains: int) returns (r: Option<Spec>)
    ensures r == Built(lib, patterns, maxDomains)
    ensures r.Some? <==> forall p :: p in patterns && p != "" ==> lib.compiles(p)
    ensures r.Some? ==>
      && r.value.maxDomains == (if maxDomains <= 0 then 100 else maxDomains)
      && forall p :: p in r.value.patterns <==> p in patterns && p != ""
  {
    forall p ensures p in NonEmpty(patterns) <==> p in patterns && p != "" {
      NonEmptyKeeps(patterns, p);
    }
    var max := if maxDomains <= 0 then DEFAULT_MAX_DOMAINS else maxDomains;
    var compiled: seq<string> := [];
    for i := 0 to |patterns|
      invariant compiled == NonEmpty(patterns[..i])
      invariant forall p :: p in compiled ==> lib.compiles(p)
    {
      assert patterns[..i + 1] == patterns[..i] + [patterns[i]];
      NonEmptyAppend(patterns[..i], [patterns[i]]);
      if patterns[i] != "" {
        if !lib.compiles(patterns[i]) {
          return None;
        }
        compiled := compiled + [patterns[i]];
      }
    }
    assert patterns[..|patterns|] == patterns;
    return Some(Spec(compiled, max));
  }

  /** No patterns: every domain is acceptable. */
  predicate Accepts(lib: Lib, c: Spec, domain: string) {
    c.patterns == [] || exists p :: p in c.patterns && lib.matches(p, domain)
  }

  // ---------------------------------------------------------------------------------------------
  // One call at a time
  // ---------------------------------------------------------------------------------------------

  /** The label of a domain and the admitted domains afterwards. */
  function Classified(lib: Lib, c: Spec, known: set<string>, domain: string): (string, set<string>) {
    if domain in known then (domain, known)
    else if !Accepts(lib, c, domain) || |known| >= c.maxDomains then (UNKNOWN_DOMAIN, known)
    else (domain, known + {domain})
  }

  class DomainClassifier {
    const lib: Lib
    const spec: Spec
    var known: set<string>

    constructor (lib: Lib, spec: Spec)
      ensures this.lib == lib && this.spec == spec && known == {}
    {
      this.lib, this.spec := lib, spec;
      known := {};
    }

    method Classify(domain: string) returns (metric: string)
      modifies this
      ensures (metric, known) == Classified(lib, spec, old(known), domain)
      ensures var admits := && domain !in old(known) && |old(known)| < spec.maxDomains
                            && (spec.patterns == [] || exists p :: p in spec.patterns && lib.matches(p, domain));
              && metric == (if domain in old(known) || admits then domain else UNKNOWN_DOMAIN)
              && known == if admits then old(known) + {domain} else old(known)
    {
      if domain in known {
        return domain;
      }
      var matched := |spec.patterns| == 0;
      if !matched {
        var i := 0;
        while i < |spec.patterns| && !matched
          invariant i <= |spec.patterns|
          invariant matched ==> Accepts(lib, spec, domain)
          invariant !matched ==> forall j :: 0 <= j < i ==> !lib.matches(spec.patterns[j], domain)
        {
          matched := lib.matches(spec.patterns[i], domain);
          i := i + 1;
        }
      }
      if !matched {
        return UNKNOWN_DOMAIN;
      }
      if domain in known {
        return domain;
      }
      if |known| >= spec.maxDomains {
        return UNKNOWN_DOMAIN;
      }
      known := known + {domain};
      return domain;
    }
  }

  // ---------------------------------------------------------------------------------------------
  // Any number of calls, interleaved between the read check and the write lock
  // ---------------------------------------------------------------------------------------------

  type Tid = nat

  datatype Call =
    | Reading(domain: string)                     // before the read-locked check
    | Missed(domain: string)                      // not found; pattern match and write lock to come
    | Returned(domain: string, metric: string)

  datatype State = State(known: set<string>, calls: map<Tid, Call>)

  const IDLE := State({}, map[])

  datatype Move = Enter(id: Tid, domain: string) | Proceed(id: Tid)

  function Next(lib: Lib, c: Spec, s: State, m: Move): Option<State> {
    match m
    case Enter(id, d) =>
      if id in s.calls then None else Some(s.(calls := s.calls[id := Reading(d)]))
    case Proceed(id) =>
      if id !in s.calls then None
      else
        match s.calls[id]
        case Returned(_, _) => None
        case Reading(d) => Some(s.(calls := s.calls[id := if d in s.known then Returned(d, d) else Missed(d)]))
        case Missed(d) =>
          if !Accepts(lib, c, d) then Some(s.(calls := s.calls[id := Returned(d, UNKNOWN_DOMAIN)]))
          else
            var (metric, known) := Classified(lib, c, s.known, d);
            Some(State(known, s.calls[id := Returned(d, metric)]))
  }

  function RunFrom(lib: Lib, c: Spec, s: State, ms: seq<Move>): Option<State> {
    if ms == [] then Some(s)
    else
      var prev := RunFrom(lib, c, s, ms[..|ms| - 1]);
      if prev.None? then None else Next(lib, c, prev.value, ms[|ms| - 1])
  }

  /** Admitted domains are acceptable and within the cap; a call returns an admitted domain or the overflow label. */
  ghost predicate Inv(lib: Lib, c: Spec, s: State) {
    && (forall d :: d in s.known ==> Accepts(lib, c, d))
    && |s.known| <= c.maxDomains
    && forall id :: id in s.calls && s.calls[id].Returned? ==>
         || s.calls[id].metric == UNKNOWN_DOMAIN
         || (s.calls[id].metric == s.calls[id].domain && s.calls[id].domain in s.known)
  }

  /** A call that answers once its domain is admitted passes it through. */
  ghost predicate PassesAdmitted(s: State, t: State) {
    forall id :: id in t.calls && t.calls[id].Returned? && t.calls[id].domain in s.known
        && !(id in s.calls && s.calls[id].Returned?)
      ==> t.calls[id].metric == t.calls[id].domain
  }

  /**
    Whatever the interleaving, from any lawful state: the invariant is kept, admitted domains stay
    admitted, and a domain once admitted is passed through by every call that answers afterwards.
  */
  lemma {:induction false} RunIsLawful(lib: Lib, c: Spec, s: State, ms: seq<Move>)
    requires Inv(lib, c, s) && RunFrom(lib, c, s, ms).Some?
    ensures var t := RunFrom(lib, c, s, ms).value;
            Inv(lib, c, t) && s.known <= t.known && PassesAdmitted(s, t)
            && (forall id :: id in s.calls && s.calls[id].Returned? ==> id in t.calls && t.calls[id] == s.calls[id])
  {
    if ms == [] {
    } else {
      var prev, m := ms[..|ms| - 1], ms[|ms| - 1];
      RunIsLawful(lib, c, s, prev);
      var t := RunFrom(lib, c, s, prev).value;
      NextIsLawful(lib, c, t, m);
    }
  }

  lemma ClassifiedIsLawful(lib: Lib, c: Spec, known: set<string>, d: string)
    requires |known| <= c.maxDomains
    ensures var (metric, known') := Classified(lib, c, known, d);
            && known <= known' <= known + {d} && |known'| <= c.maxDomains
            && (d in known' && d !in known ==> Accepts(lib, c, d))
            && (metric == UNKNOWN_DOMAIN || (metric == d && d in known')) && (d in known ==> metric == d)
  {}

  /** A move changes one call that had not returned, and admits at most lawfully. */
  lemma NextShape(lib: Lib, c: Spec, s: State, m: Move) returns (call: Call)
    requires |s.known| <= c.maxDomains && Next(lib, c, s, m).Some?
    ensures var t := Next(lib, c, s, m).value;
            && t.calls == s.calls[m.id := call] && (m.id in s.calls ==> !s.calls[m.id].Returned?)
            && s.known <= t.known && |t.known| <= c.maxDomains
            && (forall d :: d in t.known && d !in s.known ==> Accepts(lib, c, d))
            && (call.Returned? ==>
                  && (call.metric == UNKNOWN_DOMAIN || (call.metric == call.domain && call.domain in t.known))
                  && (call.domain in s.known && Accepts(lib, c, call.domain) ==> call.metric == call.domain))
  {
    hide Accepts, Classified;
    call := Next(lib, c, s, m).value.calls[m.id];
    if m.Proceed? && s.calls[m.id].Missed? {
      ClassifiedIsLawful(lib, c, s.known, s.calls[m.id].domain);
    }
  }

  lemma NextIsLawful(lib: Lib, c: Spec, s: State, m: Move)
    requires Inv(lib, c, s) && Next(lib, c, s, m).Some?
    ensures var t := Next(lib, c, s, m).value;
            Inv(lib, c, t) && s.known <= t.known && PassesAdmitted(s, t)
            && (forall id :: id in s.calls && s.calls[id].Returned? ==> id in t.calls && t.calls[id] == s.calls[id])
            && (forall id :: id in t.calls && id != m.id ==> id in s.calls && t.calls[id] == s.calls[id])
  {
    hide Accepts, Next;
    var call := NextShape(lib, c, s, m);
  }

  /** The labels handed out so far. */
  ghost function Labels(s: State): set<string> {
    set id | id in s.calls && s.calls[id].Returned? :: s.calls[id].metric
  }

  /** Label cardinality is bounded over any whole run: the cap, and the overflow label. */
  lemma LabelsAreBounded(lib: Lib, c: Spec, ms: seq<Move>)
    requires RunFrom(lib, c, IDLE, ms).Some?
    ensures |Labels(RunFrom(lib, c, IDLE, ms).value)| <= c.maxDomains + 1
  {
    RunIsLawful(lib, c, IDLE, ms);
    var t := RunFrom(lib, c, IDLE, ms).value;
    var all := t.known + {UNKNOWN_DOMAIN};
    assert Labels(t) <= all;
    assert all == Labels(t) + (all - Labels(t));
  }

  // --- the overflow label is not given away ---

  /** The acceptable domains asked about so far. */
  ghost function Asked(lib: Lib, c: Spec, s: State): set<string> {
    set id | id in s.calls && Accepts(lib, c, s.calls[id].domain) :: s.calls[id].domain
  }

  /** The call was answered with the overflow label although its domain is acceptable. */
  predicate Overflowed(lib: Lib, c: Spec, call: Call) {
    call.Returned? && call.metric == UNKNOWN_DOMAIN != call.domain && Accepts(lib, c, call.domain)
  }

  /** Only asked-about domains are admitted, and a call overflows only if the cap is reached without its domain. */
  ghost predicate Fair(lib: Lib, c: Spec, s: State) {
    && s.known <= Asked(lib, c, s)
    && forall id :: id in s.calls && Overflowed(lib, c, s.calls[id]) ==>
         |s.known| >= c.maxDomains && s.calls[id].domain !in s.known
  }

  /** What a move does to the admitted domains, from the side of the call it answers. */
  lemma NextIsFair(lib: Lib, c: Spec, s: State, m: Move) returns (call: Call)
    requires Next(lib, c, s, m).Some?
    ensures var t := Next(lib, c, s, m).value;
            && t.calls == s.calls[m.id := call] && (m.id in s.calls ==> s.calls[m.id].domain == call.domain)
            && (t.known == s.known
                || (t.known == s.known + {call.domain} && |s.known| < c.maxDomains && Accepts(lib, c, call.domain)
                    && !Overflowed(lib, c, call)))
            && (Overflowed(lib, c, call) ==> |s.known| >= c.maxDomains && call.domain !in s.known)
  {
    hide Accepts;
    call := Next(lib, c, s, m).value.calls[m.id];
  }

  lemma {:induction false} RunIsFair(lib: Lib, c: Spec, ms: seq<Move>)
    requires RunFrom(lib, c, IDLE, ms).Some?
    ensures Fair(lib, c, RunFrom(lib, c, IDLE, ms).value)
  {
    hide Accepts, Next, Overflowed;
    if ms == [] {
    } else {
      var s, m := RunFrom(lib, c, IDLE, ms[..|ms| - 1]).value, ms[|ms| - 1];
      RunIsFair(lib, c, ms[..|ms| - 1]);
      var call := NextIsFair(lib, c, s, m);
      StaysFair(lib, c, s, m.id, call, Next(lib, c, s, m).value.known);
    }
  }

  lemma StaysFair(lib: Lib, c: Spec, s: State, id: Tid, call: Call, known: set<string>)
    requires Fair(lib, c, s) && (id in s.calls ==> s.calls[id].domain == call.domain)
    requires || known == s.known
             || (known == s.known + {call.domain} && |s.known| < c.maxDomains && Accepts(lib, c, call.domain)
                 && !Overflowed(lib, c, call))
    requires Overflowed(lib, c, call) ==> |s.known| >= c.maxDomains && call.domain !in s.known
    ensures Fair(lib, c, State(known, s.calls[id := call]))
  {
    hide Accepts, Overflowed;
    var t := State(known, s.calls[id := call]);
    forall d | d in known ensures d in Asked(lib, c, t) {
      if d == call.domain && known != s.known {
        assert t.calls[id] == call;
      } else {
        var j :| j in s.calls && Accepts(lib, c, s.calls[j].domain) && s.calls[j].domain == d;
        assert t.calls[j].domain == d;
      }
    }
  }

  /**
    Over every interleaving that asks about no more acceptable domains than the cap, each answer is exact: an
    acceptable domain is passed through and any other gets the overflow label.
  */
  lemma WithinCapIsExact(lib: Lib, c: Spec, ms: seq<Move>, id: Tid)
    requires RunFrom(lib, c, IDLE, ms).Some? && id in RunFrom(lib, c, IDLE, ms).value.calls
    requires |Asked(lib, c, RunFrom(lib, c, IDLE, ms).value)| <= c.maxDomains
    requires RunFrom(lib, c, IDLE, ms).value.calls[id].Returned?
    ensures var call := RunFrom(lib, c, IDLE, ms).value.calls[id];
            call.metric == if Accepts(lib, c, call.domain) then call.domain else UNKNOWN_DOMAIN
  {
    hide RunFrom, Accepts;
    var s := RunFrom(lib, c, IDLE, ms).value;
    RunIsFair(lib, c, ms);
    RunIsLawful(lib, c, IDLE, ms);
    var call := s.calls[id];
    if Overflowed(lib, c, call) {
      assert call.domain in Asked(lib, c, s);
      SubsetSize(s.known + {call.domain}, Asked(lib, c, s));
    }
  }

  /** A call that is not interleaved answers as `Classified`, that is, as the method does. */
  lemma UninterruptedCall(lib: Lib, c: Spec, s: State, id: Tid, domain: string)
    requires Inv(lib, c, s) && id !in s.calls
    ensures var (metric, known) := Classified(lib, c, s.known, domain);
            var ms := [Enter(id, domain), Proceed(id)] + if domain in s.known then [] else [Proceed(id)];
            RunFrom(lib, c, s, ms) == Some(State(known, s.calls[id := Returned(domain, metric)]))
  {
    hide Accepts, RunFrom;
    var s1 := s.(calls := s.calls[id := Reading(domain)]);
    var a := [Enter(id, domain)];
    RunOne(lib, c, s, [], Enter(id, domain), s, s1);
    assert [] + a == a;
    if domain in s.known {
      var t := s.(calls := s.calls[id := Returned(domain, domain)]);
      assert s1.calls[id := Returned(domain, domain)] == t.calls;
      RunOne(lib, c, s, a, Proceed(id), s1, t);
      assert a + [Proceed(id)] == [Enter(id, domain), Proceed(id)] + [];
    } else {
      var s2 := s.(calls := s.calls[id := Missed(domain)]);
      var (metric, known) := Classified(lib, c, s.known, domain);
      var t := State(known, s.calls[id := Returned(domain, metric)]);
      assert s1.calls[id := Missed(domain)] == s2.calls;
      assert s2.calls[id := Returned(domain, metric)] == t.calls;
      RunOne(lib, c, s, a, Proceed(id), s1, s2);
      RunOne(lib, c, s, a + [Proceed(id)], Proceed(id), s2, t);
      assert a + [Proceed(id)] + [Proceed(id)] == [Enter(id, domain), Proceed(id)] + [Proceed(id)];
    }
  }

  lemma RunOne(lib: Lib, c: Spec, s0: State, ms: seq<Move>, m: Move, s: State, t: State)
    requires (if ms == [] then s == s0 else RunFrom(lib, c, s0, ms) == Some(s)) && Next(lib, c, s, m) == Some(t)
    ensures RunFrom(lib, c, s0, ms + [m]) == Some(t)
  {
    hide Next;
    assert (ms + [m])[..|ms + [m]| - 1] == ms;
  }
}
