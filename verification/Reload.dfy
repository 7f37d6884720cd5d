/** Hot reload (the reload loop of cmd/rlqs-server/main.go, guarded by internal/config/diff.go). */
module Reload {
  import opened Keys
  import opened Config
  import opened Classifier
  import opened Engine

  datatype Scope = HotReload | RequiresRestart

  datatype Change = Change(section: string, scope: Scope)

  /** The sections that differ. */
  method Diff(running: Config, incoming: Config) returns (changes: seq<Change>)
    ensures changes == [] <==> running == incoming
    ensures forall c :: c in changes ==> (c.scope == HotReload <==> c.section == "engine")
    ensures Change("engine", HotReload) in changes <==> running.engine != incoming.engine
  {
    changes := [];
    if running.engine != incoming.engine {
      changes := changes + [Change("engine", HotReload)];
    }
    if running.server != incoming.server {
      changes := changes + [Change("server", RequiresRestart)];
    }
    if running.storage != incoming.storage {
      changes := changes + [Change("storage", RequiresRestart)];
    }
    if running.tracing != incoming.tracing {
      changes := changes + [Change("tracing", RequiresRestart)];
    }
  }

  // ---------------------------------------------------------------------------------------------
  // The classifier of a configuration
  // ---------------------------------------------------------------------------------------------

  function DomainPatterns(pcs: seq<PolicyConfig>): seq<string> {
    if pcs == [] then []
    else
      var last := pcs[|pcs| - 1].domainPattern;
      DomainPatterns(pcs[..|pcs| - 1]) + if last != "" then [last] else []
  }

  function ClassifierOf(lib: Lib, cfg: Config): Option<Spec> {
    Built(lib, DomainPatterns(cfg.engine.policies), cfg.server.maxMetricDomains)
  }

  method BuildDomainClassifier(lib: Lib, cfg: Config) returns (r: Option<Spec>)
    ensures r == ClassifierOf(lib, cfg)
  {
    var pcs := cfg.engine.policies;
    var patterns: seq<string> := [];
    for i := 0 to |pcs|
      invariant patterns == DomainPatterns(pcs[..i])
    {
      assert pcs[..i + 1][..i] == pcs[..i];
      if pcs[i].domainPattern != "" {
        patterns := patterns + [pcs[i].domainPattern];
      }
    }
    assert pcs[..|pcs|] == pcs;
    r := NewDomainClassifier(lib, patterns, cfg.server.maxMetricDomains);
  }

  lemma {:induction false} DomainPatternsCompile(lib: Lib, pcs: seq<PolicyConfig>, p: string)
    requires forall i :: 0 <= i < |pcs| ==> PatternOk(lib, pcs[i].domainPattern)
    requires p in DomainPatterns(pcs)
    ensures lib.compiles(p)
  {
    if p in DomainPatterns(pcs[..|pcs| - 1]) {
      DomainPatternsCompile(lib, pcs[..|pcs| - 1], p);
    }
  }

  /** A configuration whose engine builds also has a classifier. */
  lemma EngineBuildsSoClassifierDoes(lib: Lib, cfg: Config)
    requires Builds(lib, cfg.engine)
    ensures ClassifierOf(lib, cfg).Some?
  {
    var patterns := DomainPatterns(cfg.engine.policies);
    forall p | p in NonEmpty(patterns) ensures lib.compiles(p) {
      NonEmptyKeeps(patterns, p);
      DomainPatternsCompile(lib, cfg.engine.policies, p);
    }
  }

  lemma {:induction false} DomainPatternsAre(pcs: seq<PolicyConfig>, p: string)
    ensures p in DomainPatterns(pcs) <==> p != "" && exists i :: 0 <= i < |pcs| && pcs[i].domainPattern == p
  {
    if pcs == [] {
    } else {
      var prev := pcs[..|pcs| - 1];
      DomainPatternsAre(prev, p);
      if i :| 0 <= i < |pcs| && pcs[i].domainPattern == p {
        assert i < |prev| ==> prev[i].domainPattern == p;
      }
      if i :| 0 <= i < |prev| && prev[i].domainPattern == p {
        assert pcs[i].domainPattern == p;
      }
    }
  }

  /**
    The classifier of a configuration accepts a domain exactly if no policy has a domain pattern or one of
    those patterns matches it, and its cap is the configured one, if positive.
  */
  lemma ClassifierMeaning(lib: Lib, cfg: Config, domain: string)
    requires ClassifierOf(lib, cfg).Some?
    ensures var c, pcs := ClassifierOf(lib, cfg).value, cfg.engine.policies;
            && (Accepts(lib, c, domain) <==>
                  || (forall i :: 0 <= i < |pcs| ==> pcs[i].domainPattern == "")
                  || exists i :: 0 <= i < |pcs| && pcs[i].domainPattern != ""
                                 && lib.matches(pcs[i].domainPattern, domain))
            && c.maxDomains == if cfg.server.maxMetricDomains <= 0 then 100 else cfg.server.maxMetricDomains
  {
    var c, pcs := ClassifierOf(lib, cfg).value, cfg.engine.policies;
    forall p
      ensures p in c.patterns <==> p != "" && exists i :: 0 <= i < |pcs| && pcs[i].domainPattern == p
    {
      NonEmptyKeeps(DomainPatterns(pcs), p);
      DomainPatternsAre(pcs, p);
    }
    assert c.patterns != [] ==> c.patterns[0] in c.patterns;
    assert forall i :: 0 <= i < |pcs| && pcs[i].domainPattern != "" ==> pcs[i].domainPattern in c.patterns;
  }

  // ---------------------------------------------------------------------------------------------
  // The loop
  // ---------------------------------------------------------------------------------------------

  /** Storing an engine of another concrete type into the atomic value panics, and takes the process down. */
  datatype Process = Running(cfg: Config, engine: QuotaEngine, classifier: Spec) | Crashed

  predicate SameKind(a: QuotaEngine, b: QuotaEngine) {
    a.DefaultEngine? <==> b.DefaultEngine?
  }

  /** One configuration from the watcher. */
  function Reloaded(lib: Lib, p: Process, cfg: Config): Process {
    if p.Crashed? || p.cfg == cfg || !Builds(lib, cfg.engine) || ClassifierOf(lib, cfg).None? then p
    else if !SameKind(p.engine, EngineOf(lib, cfg.engine)) then Crashed
    else Running(cfg, EngineOf(lib, cfg.engine), ClassifierOf(lib, cfg).value)
  }

  function ReloadedAll(lib: Lib, p: Process, cfgs: seq<Config>): Process {
    if cfgs == [] then p else Reloaded(lib, ReloadedAll(lib, p, cfgs[..|cfgs| - 1]), cfgs[|cfgs| - 1])
  }

  /** The running server, as far as reload changes it. */
  class Reloader {
    const lib: Lib
    var currentCfg: Config
    var engine: QuotaEngine
    var classifier: Spec
    var crashed: bool

    ghost function View(): Process
      reads this
    {
      if crashed then Crashed else Running(currentCfg, engine, classifier)
    }

    constructor (lib: Lib, cfg: Config, engine: QuotaEngine, classifier: Spec)
      ensures this.lib == lib && View() == Running(cfg, engine, classifier)
    {
      this.lib, currentCfg, this.engine, this.classifier, crashed := lib, cfg, engine, classifier, false;
    }

    /** atomic.Value.Store followed by a push; it panics on an engine of another concrete type. */
    method SwapEngine(e: QuotaEngine)
      requires !crashed
      modifies this`engine, this`crashed
      ensures crashed <==> !SameKind(old(engine), e)
      ensures engine == if crashed then old(engine) else e
    {
      if SameKind(engine, e) {
        engine := e;
      } else {
        crashed := true;
      }
    }

    method SwapDomainClassifier(c: Spec)
      modifies this`classifier
      ensures classifier == c
    {
      classifier := c;
    }

    method Step(newCfg: Config)
      requires !crashed
      modifies this
      ensures View() == Reloaded(lib, old(View()), newCfg)
    {
      var changes := Diff(currentCfg, newCfg);
      if |changes| == 0 {
        return;
      }
      var newEngine := BuildEngine(lib, newCfg.engine);
      if newEngine.None? {
        return;
      }
      var newClassifier := BuildDomainClassifier(lib, newCfg);
      if newClassifier.None? {
        return;
      }
      SwapEngine(newEngine.value);
      if crashed {
        return;
      }
      SwapDomainClassifier(newClassifier.value);
      currentCfg := newCfg;
    }

    method Loop(cfgs: seq<Config>)
      requires !crashed
      modifies this
      ensures View() == ReloadedAll(lib, old(View()), cfgs)
    {
      for i := 0 to |cfgs|
        invariant View() == ReloadedAll(lib, old(View()), cfgs[..i])
      {
        assert cfgs[..i + 1][..i] == cfgs[..i];
        if !crashed {
          Step(cfgs[i]);
        }
      }
      assert cfgs[..|cfgs|] == cfgs;
    }
  }

  // ---------------------------------------------------------------------------------------------
  // What runs after any sequence of configurations
  // ---------------------------------------------------------------------------------------------

  /** The process runs what its configuration builds. */
  predicate Corresponds(lib: Lib, p: Process) {
    && p.Running? && Builds(lib, p.cfg.engine)
    && p.engine == EngineOf(lib, p.cfg.engine)
    && ClassifierOf(lib, p.cfg) == Some(p.classifier)
  }

  /** The last configuration that builds. */
  function LastBuilding(lib: Lib, first: Config, cfgs: seq<Config>): Config {
    if cfgs == [] then first
    else if Builds(lib, cfgs[|cfgs| - 1].engine) then cfgs[|cfgs| - 1]
    else LastBuilding(lib, first, cfgs[..|cfgs| - 1])
  }

  /** Some configuration builds an engine of the other kind than the first one's. */
  predicate Flips(lib: Lib, first: Config, cfgs: seq<Config>) {
    exists i :: 0 <= i < |cfgs| && Builds(lib, cfgs[i].engine)
      && (cfgs[i].engine.policies == []) != (first.engine.policies == [])
  }

  lemma FlipsSnoc(lib: Lib, first: Config, cfgs: seq<Config>)
    requires cfgs != []
    ensures var last := cfgs[|cfgs| - 1];
            Flips(lib, first, cfgs) <==>
              Flips(lib, first, cfgs[..|cfgs| - 1])
              || (Builds(lib, last.engine) && (last.engine.policies == []) != (first.engine.policies == []))
  {
    var prev := cfgs[..|cfgs| - 1];
    if Flips(lib, first, prev) {
      var i :| 0 <= i < |prev| && Builds(lib, prev[i].engine)
        && (prev[i].engine.policies == []) != (first.engine.policies == []);
      assert cfgs[i] == prev[i];
    }
    if Flips(lib, first, cfgs) {
      var i :| 0 <= i < |cfgs| && Builds(lib, cfgs[i].engine)
        && (cfgs[i].engine.policies == []) != (first.engine.policies == []);
      assert i < |prev| ==> prev[i] == cfgs[i];
    }
  }

  /**
    Over any reload sequence the server crashes exactly if some configuration that builds has policies
    where the first had none, or the other way round. Otherwise it runs the engine and the classifier
    of the last configuration that builds: rejected ones change nothing, skipped ones would not have.
  */
  lemma {:induction false} ReloadMeaning(lib: Lib, p: Process, cfgs: seq<Config>)
    requires Corresponds(lib, p)
    ensures var q := ReloadedAll(lib, p, cfgs);
            && (q.Crashed? <==> Flips(lib, p.cfg, cfgs))
            && (q.Running? ==>
                  && Corresponds(lib, q) && q.cfg == LastBuilding(lib, p.cfg, cfgs)
                  && (q.cfg.engine.policies == [] <==> p.cfg.engine.policies == []))
  {
    hide Builds, ClassifierOf;
    if cfgs == [] {
    } else {
      var prev, cfg := cfgs[..|cfgs| - 1], cfgs[|cfgs| - 1];
      ReloadMeaning(lib, p, prev);
      FlipsSnoc(lib, p.cfg, cfgs);
      if Builds(lib, cfg.engine) {
        EngineBuildsSoClassifierDoes(lib, cfg);
      }
    }
  }

  /** For example, whatever is running without policies crashes on the first policy that applies to everything. */
  lemma FirstPolicyCrashes(lib: Lib, p: Process, pc: PolicyConfig)
    requires Corresponds(lib, p) && p.cfg.engine.policies == []
    requires pc.domainPattern == pc.bucketKeyPattern == ""
    ensures ReloadedAll(lib, p, [p.cfg.(engine := p.cfg.engine.(policies := [pc]))]) == Crashed
  {
    var cfg := p.cfg.(engine := p.cfg.engine.(policies := [pc]));
    assert Builds(lib, cfg.engine);
    assert [cfg][0] == cfg;
    ReloadMeaning(lib, p, [cfg]);
  }
}
