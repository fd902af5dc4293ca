/** The one-at-a-time mode, and when it agrees with the concurrent one. */
module PipelineSerial {
  import opened Basics
  import opened PipelineModel
  import opened PipelineInvariant
  import opened PipelineOutcome
  import opened PipelineBlame
  import opened PipelinePlan
  import opened PipelineScheduler

  /** should_build, for a build that targets the host itself. */
  predicate ShouldBuild(g: Gate) {
    !g.manifest || g.force || g.incremental || g.wipe
  }

  /** provide() fetches and then builds. */
  predicate ProvideOk(p: Provider) {
    p.fetchOk && p.buildOk
  }

  predicate Failed(x: State) {
    x == FetchFailed || x == BuildFailed
  }

  /** The serial mode has something to do for the dep, and reports it. */
  predicate Works(cfg: Config, n: Name)
    requires n in cfg.providers
  {
    cfg.providers[n].gate.supportsHost && (cfg.fetchOnly || ShouldBuild(cfg.providers[n].gate))
  }

  function SerialResult(cfg: Config, n: Name): State
    requires n in cfg.providers
  {
    var p := cfg.providers[n];
    if cfg.fetchOnly then if p.fetchOk then SourceReady else FetchFailed
    else if !ShouldBuild(p.gate) || ProvideOk(p) then Done else BuildFailed
  }

  function StateAfter(cfg: Config, n: Name, st: map<Name, State>): map<Name, State>
    requires n in cfg.providers
  {
    if cfg.providers[n].gate.supportsHost then st[n := SerialResult(cfg, n)] else st
  }

  function HistoryAfter(cfg: Config, n: Name, history: seq<Entry>): seq<Entry>
    requires n in cfg.providers
  {
    history + if Works(cfg, n) then [Entry(n, SerialResult(cfg, n))] else []
  }

  predicate StopsAt(cfg: Config, n: Name)
    requires n in cfg.providers
  {
    cfg.providers[n].gate.supportsHost && Failed(SerialResult(cfg, n))
  }

  /** How a serial run ends: its Boolean, the states, and all completions reported. */
  datatype Run = Run(ok: bool, st: map<Name, State>, history: seq<Entry>)

  /** Each supported dep in turn, until one fails. */
  function SerialRun(cfg: Config, todo: seq<Name>, st: map<Name, State>, history: seq<Entry>): Run
    requires forall n :: n in todo ==> n in cfg.providers
  {
    if todo == [] then Run(true, st, history)
    else
      var t, more := StateAfter(cfg, todo[0], st), HistoryAfter(cfg, todo[0], history);
      if StopsAt(cfg, todo[0]) then Run(false, t, more) else SerialRun(cfg, todo[1..], t, more)
  }

  lemma SerialRunFrom(cfg: Config, todo: seq<Name>, i: nat, st: map<Name, State>, history: seq<Entry>)
    requires (forall n :: n in todo ==> n in cfg.providers) && i < |todo|
    ensures var t, more := StateAfter(cfg, todo[i], st), HistoryAfter(cfg, todo[i], history);
      SerialRun(cfg, todo[i..], st, history) ==
        if StopsAt(cfg, todo[i]) then Run(false, t, more) else SerialRun(cfg, todo[i + 1..], t, more)
  {
    assert todo[i..][1..] == todo[i + 1..];
  }

  lemma PushKeepsLast(history: seq<Entry>, e: Entry)
    ensures Push(LastRecent(history), e) == LastRecent(history + [e])
  {
  }

  class SerialRunner {
    const cfg: Config
    var state: map<Name, State>
    var recent: seq<Entry>

    constructor (cfg: Config, init: map<Name, State>)
      ensures this.cfg == cfg && state == init && recent == []
    {
      this.cfg, state, recent := cfg, init, [];
    }

    /** One turn of the loop; ok says whether to go on. */
    method RunOne(n: Name, ghost history: seq<Entry>) returns (ok: bool)
      requires n in cfg.providers && state.Keys == cfg.providers.Keys && recent == LastRecent(history)
      modifies this
      ensures state == StateAfter(cfg, n, old(state))
      ensures recent == LastRecent(HistoryAfter(cfg, n, history))
      ensures ok <==> !StopsAt(cfg, n)
    {
      var p := cfg.providers[n];
      if !p.gate.supportsHost {
        return true;
      }
      var newState;
      if cfg.fetchOnly {
        state := state[n := Fetching];
        newState := if p.fetchOk then SourceReady else FetchFailed;
      } else {
        if !ShouldBuild(p.gate) {
          if state[n] != Done {
            state := state[n := Done];
          }
          assert state == old(state)[n := Done];
          return true;
        }
        state := state[n := Building];
        newState := if ProvideOk(p) then Done else BuildFailed;
      }
      state := state[n := newState];
      SetTwice(old(state), n, if cfg.fetchOnly then Fetching else Building, newState);
      PushKeepsLast(history, Entry(n, newState));
      recent := Push(recent, Entry(n, newState));
      ok := newState != FetchFailed && newState != BuildFailed;
    }

    method RunSerial() returns (ok: bool)
      requires cfg.Valid() && state.Keys == cfg.providers.Keys && |recent| <= RECENT_MAX
      modifies this
      ensures var run := SerialRun(cfg, cfg.deps, old(state), old(recent));
        ok == run.ok && state == run.st && recent == LastRecent(run.history)
    {
      ghost var history, goal := recent, SerialRun(cfg, cfg.deps, state, recent);
      for i := 0 to |cfg.deps|
        invariant state.Keys == cfg.providers.Keys && recent == LastRecent(history)
        invariant SerialRun(cfg, cfg.deps[i..], state, history) == goal
      {
        var n := cfg.deps[i];
        SerialRunFrom(cfg, cfg.deps, i, state, history);
        ok := RunOne(n, history);
        history := HistoryAfter(cfg, n, history);
        if !ok {
          return;
        }
      }
      ok := true;
    }
  }

  /** Every supported dep in its goal state. */
  function SerialGoals(cfg: Config, todo: seq<Name>): map<Name, State>
    requires forall n :: n in todo ==> n in cfg.providers
  {
    map n | n in todo && cfg.providers[n].gate.supportsHost :: SerialResult(cfg, n)
  }

  lemma GoalsFirst(cfg: Config, todo: seq<Name>, st: map<Name, State>)
    requires (forall n :: n in todo ==> n in cfg.providers) && todo != []
    requires cfg.providers[todo[0]].gate.supportsHost
    ensures st[todo[0] := SerialResult(cfg, todo[0])] + SerialGoals(cfg, todo[1..]) == st + SerialGoals(cfg, todo)
  {
  }

  /** It succeeds exactly when no supported dep fails, and then they all have their goal states. */
  lemma {:induction false} SerialRunMeaning(cfg: Config, todo: seq<Name>, st: map<Name, State>, history: seq<Entry>)
    requires forall n :: n in todo ==> n in cfg.providers
    ensures var r := SerialRun(cfg, todo, st, history);
      && (r.ok <==> forall n :: n in todo && cfg.providers[n].gate.supportsHost ==> !Failed(SerialResult(cfg, n)))
      && (r.ok ==> r.st == st + SerialGoals(cfg, todo))
    decreases |todo|
  {
    if todo != [] {
      var n := todo[0];
      SerialRunMeaning(cfg, todo[1..], StateAfter(cfg, n, st), HistoryAfter(cfg, n, history));
      if cfg.providers[n].gate.supportsHost {
        GoalsFirst(cfg, todo, st);
      } else {
        assert SerialGoals(cfg, todo) == SerialGoals(cfg, todo[1..]);
      }
    }
  }

  /** The completions of a serial run in which nothing fails, in order. */
  function SerialReports(cfg: Config, todo: seq<Name>): seq<Entry>
    requires forall n :: n in todo ==> n in cfg.providers
  {
    if todo == [] then [] else HistoryAfter(cfg, todo[0], []) + SerialReports(cfg, todo[1..])
  }

  lemma HistoryGrows(cfg: Config, n: Name, history: seq<Entry>)
    requires n in cfg.providers
    ensures HistoryAfter(cfg, n, history) == history + HistoryAfter(cfg, n, [])
  {
  }

  /** A serial run reports these in order, all of them if it succeeds, and else up to the one that failed. */
  lemma {:induction false} SerialRunReports(cfg: Config, todo: seq<Name>, st: map<Name, State>, history: seq<Entry>)
    requires forall n :: n in todo ==> n in cfg.providers
    ensures var r := SerialRun(cfg, todo, st, history);
      && history <= r.history <= history + SerialReports(cfg, todo)
      && (r.ok ==> r.history == history + SerialReports(cfg, todo))
      && (!r.ok ==> r.history != history && Failed(r.history[|r.history| - 1].state))
    decreases |todo|
  {
    if todo != [] {
      var n := todo[0];
      var more := HistoryAfter(cfg, n, history);
      HistoryGrows(cfg, n, history);
      Regroup(history, HistoryAfter(cfg, n, []), SerialReports(cfg, todo[1..]));
      if !StopsAt(cfg, n) {
        SerialRunReports(cfg, todo[1..], StateAfter(cfg, n, st), more);
      }
    }
  }

  // ---- the same, state by state ----

  /** The deps the serial mode does something for, in order: all supported ones, or those with a reason to build. */
  function Worked(cfg: Config, todo: seq<Name>): seq<Name>
    requires forall n :: n in todo ==> n in cfg.providers
  {
    if todo == [] then []
    else
      var g := cfg.providers[todo[0]].gate;
      (if g.supportsHost && (cfg.fetchOnly || !g.manifest || g.force || g.incremental || g.wipe) then [todo[0]] else [])
      + Worked(cfg, todo[1..])
  }

  /** What comes of the work on a dep, fetched only or fetched and built. */
  predicate WorkGoesWell(cfg: Config, n: Name)
    requires n in cfg.providers
  {
    cfg.providers[n].fetchOk && (cfg.fetchOnly || cfg.providers[n].buildOk)
  }

  /** These entries report the names in order, each of them well done. */
  predicate AllWell(cfg: Config, names: seq<Name>, entries: seq<Entry>) {
    |entries| == |names| && forall i :: 0 <= i < |names| ==>
      entries[i].name == names[i] && entries[i].state == if cfg.fetchOnly then SourceReady else Done
  }

  /** Every supported dep of the list is at its goal, and nothing else has changed. */
  ghost predicate AtGoals(cfg: Config, todo: seq<Name>, st: map<Name, State>, last: map<Name, State>)
    requires forall n :: n in todo ==> n in cfg.providers
  {
    && (forall n :: n in todo && cfg.providers[n].gate.supportsHost ==>
          Is(last, n, if cfg.fetchOnly then SourceReady else Done))
    && (forall n, x :: (n in todo ==> !cfg.providers[n].gate.supportsHost) ==> (Is(last, n, x) <==> Is(st, n, x)))
  }

  /** A run that reaches its end: all work went well and was reported, and every supported dep is at its goal. */
  ghost predicate RanThrough(cfg: Config, todo: seq<Name>, st: map<Name, State>, history: seq<Entry>, r: Run)
    requires forall n :: n in todo ==> n in cfg.providers
  {
    && r.ok && (forall n :: n in Worked(cfg, todo) ==> n in cfg.providers && WorkGoesWell(cfg, n))
    && history <= r.history && AllWell(cfg, Worked(cfg, todo), Added(history, r.history))
    && AtGoals(cfg, todo, st, r.st)
  }

  /** A run that the k-th dep stops: up to there it went well; this one failed in its stage, and is reported last. */
  ghost predicate StoppedAt(cfg: Config, todo: seq<Name>, st: map<Name, State>, history: seq<Entry>, r: Run, k: nat)
    requires forall n :: n in todo ==> n in cfg.providers
  {
    && k < |todo| && todo[k] in Worked(cfg, [todo[k]]) && !WorkGoesWell(cfg, todo[k])
    && exists t, h :: RanThrough(cfg, todo[..k], st, history, Run(true, t, h))
         && r == FailedAfter(t, h, todo[k], if cfg.fetchOnly then FetchFailed else BuildFailed)
  }

  function FailedAfter(st: map<Name, State>, history: seq<Entry>, n: Name, x: State): Run {
    Run(false, st[n := x], history + [Entry(n, x)])
  }

  lemma FirstWell(cfg: Config, todo: seq<Name>, st: map<Name, State>, history: seq<Entry>, r: Run)
    requires (forall n :: n in todo ==> n in cfg.providers) && todo != [] && !StopsAt(cfg, todo[0])
    requires RanThrough(cfg, todo[1..], StateAfter(cfg, todo[0], st), HistoryAfter(cfg, todo[0], history), r)
    ensures RanThrough(cfg, todo, st, history, r)
  {
    var n, more := todo[0], HistoryAfter(cfg, todo[0], history);
    if Works(cfg, n) {
      AddedAfterOne(history, Entry(n, SerialResult(cfg, n)), r.history);
      assert Worked(cfg, todo) == [n] + Worked(cfg, todo[1..]);
    } else {
      assert more == history && Worked(cfg, todo) == Worked(cfg, todo[1..]);
    }
    FirstWellStates(cfg, todo, st, r.st);
  }

  lemma FirstWellStates(cfg: Config, todo: seq<Name>, st: map<Name, State>, last: map<Name, State>)
    requires (forall n :: n in todo ==> n in cfg.providers) && todo != [] && !StopsAt(cfg, todo[0])
    requires AtGoals(cfg, todo[1..], StateAfter(cfg, todo[0], st), last)
    ensures AtGoals(cfg, todo, st, last)
  {
    forall n | n in todo && cfg.providers[n].gate.supportsHost
      ensures Is(last, n, if cfg.fetchOnly then SourceReady else Done)
    {
      if n !in todo[1..] {
        assert n == todo[0];
        assert Is(StateAfter(cfg, n, st), n, SerialResult(cfg, n));
      }
    }
  }

  /**
   How every serial run ends, state by state and completion by completion: it runs through, or it stops at the first dep
   whose work fails.
   */
  lemma {:induction false} SerialRunEnds(cfg: Config, todo: seq<Name>, st: map<Name, State>, history: seq<Entry>)
    requires forall n :: n in todo ==> n in cfg.providers
    ensures var r := SerialRun(cfg, todo, st, history);
      if r.ok then RanThrough(cfg, todo, st, history, r) else exists k :: StoppedAt(cfg, todo, st, history, r, k)
    decreases |todo|
  {
    if todo == [] {
      AddedNothing(history);
    } else {
      var n, r := todo[0], SerialRun(cfg, todo, st, history);
      if StopsAt(cfg, n) {
        AddedNothing(history);
        assert todo[..0] == [] && RanThrough(cfg, [], st, history, Run(true, st, history));
        assert StoppedAt(cfg, todo, st, history, r, 0);
      } else {
        SerialRunEnds(cfg, todo[1..], StateAfter(cfg, n, st), HistoryAfter(cfg, n, history));
        if r.ok {
          FirstWell(cfg, todo, st, history, r);
        } else {
          var k :| StoppedAt(cfg, todo[1..], StateAfter(cfg, n, st), HistoryAfter(cfg, n, history), r, k);
          StopsLater(cfg, todo, st, history, r, k);
        }
      }
    }
  }

  lemma StopsLater(cfg: Config, todo: seq<Name>, st: map<Name, State>, history: seq<Entry>, r: Run, k: nat)
    requires (forall n :: n in todo ==> n in cfg.providers) && todo != [] && !StopsAt(cfg, todo[0])
    requires StoppedAt(cfg, todo[1..], StateAfter(cfg, todo[0], st), HistoryAfter(cfg, todo[0], history), r, k)
    ensures StoppedAt(cfg, todo, st, history, r, k + 1)
  {
    var n, t1, h1 := todo[0], StateAfter(cfg, todo[0], st), HistoryAfter(cfg, todo[0], history);
    var t, h :| RanThrough(cfg, todo[1..][..k], t1, h1, Run(true, t, h))
      && r == FailedAfter(t, h, todo[1..][k], if cfg.fetchOnly then FetchFailed else BuildFailed);
    assert todo[..k + 1][1..] == todo[1..][..k];
    FirstWell(cfg, todo[..k + 1], st, history, Run(true, t, h));
  }

  ghost predicate SameVerdict(cfg: Config)
    requires cfg.Valid()
  {
    var init := PlanState(cfg.providers);
    SerialRun(cfg, cfg.deps, init, []).ok <==> Complete(cfg, Final(cfg, init))
  }

  /** What every plan has, where the graph has no cycle. */
  ghost predicate Planned(cfg: Config) {
    cfg.Valid() && DepsFirst(cfg) && FetchOnlyApart(cfg)
  }

  /**
   Both modes ask the same work of the dep.  They do not where the concurrent phase finds it provisioned but the serial
   mode fetches or rebuilds it, and where the serial mode builds what was only to be fetched.
   */
  predicate TreatedAlike(cfg: Config, n: Name)
    requires n in cfg.providers
  {
    var g := cfg.providers[n].gate;
    || !g.supportsHost
    || (if Provisioned(g) then !cfg.fetchOnly && !ShouldBuild(g) else cfg.fetchOnly || n !in cfg.fetchOnlySet)
  }

  ghost predicate AllTreatedAlike(cfg: Config) {
    forall n :: n in cfg.providers ==> TreatedAlike(cfg, n)
  }

  lemma SerialVerdict(cfg: Config)
    requires Planned(cfg) && AllTreatedAlike(cfg)
    ensures SerialRun(cfg, cfg.deps, PlanState(cfg.providers), []).ok <==> AllWorkOk(cfg)
  {
    SerialRunMeaning(cfg, cfg.deps, PlanState(cfg.providers), []);
    forall n | n in cfg.providers && cfg.providers[n].gate.supportsHost
      ensures !Failed(SerialResult(cfg, n)) <==> Provisioned(cfg.providers[n].gate) || OwnWorkOk(cfg, n)
    {
      assert TreatedAlike(cfg, n);
    }
  }

  /** Where all deps are treated alike both modes return the same Boolean, and on success leave the same states. */
  lemma SerialAgrees(cfg: Config)
    requires Planned(cfg) && AllTreatedAlike(cfg)
    ensures SameVerdict(cfg)
    ensures var init := PlanState(cfg.providers);
      SerialRun(cfg, cfg.deps, init, []).ok ==> SerialRun(cfg, cfg.deps, init, []).st == Final(cfg, init)
  {
    var init := PlanState(cfg.providers);
    SerialVerdict(cfg);
    SuccessIffAllWorkOk(cfg);
    SerialRunMeaning(cfg, cfg.deps, init, []);
    if SerialRun(cfg, cfg.deps, init, []).ok {
      GoalsAreFinal(cfg);
    }
  }

  /** Where everything succeeds, the goals of the serial mode are what the concurrent one comes to. */
  lemma GoalsAreFinal(cfg: Config)
    requires Planned(cfg) && AllTreatedAlike(cfg) && Complete(cfg, Final(cfg, PlanState(cfg.providers)))
    requires forall n :: n in cfg.deps && cfg.providers[n].gate.supportsHost ==> !Failed(SerialResult(cfg, n))
    ensures PlanState(cfg.providers) + SerialGoals(cfg, cfg.deps) == Final(cfg, PlanState(cfg.providers))
  {
    var init := PlanState(cfg.providers);
    var st, last := init + SerialGoals(cfg, cfg.deps), Final(cfg, init);
    forall n | n in cfg.providers ensures st[n] == last[n] {
      assert n in cfg.deps && TreatedAlike(cfg, n);
    }
  }

  /** The same project with other outcomes: what fetches and what builds without failing. */
  function WithOutcomes(cfg: Config, fetched: set<Name>, built: set<Name>): Config {
    cfg.(providers := map n | n in cfg.providers ::
      cfg.providers[n].(fetchOk := n in fetched, buildOk := n in built))
  }

  lemma StillPlanned(cfg: Config, fetched: set<Name>, built: set<Name>)
    requires Planned(cfg)
    ensures Planned(WithOutcomes(cfg, fetched, built))
    ensures forall n :: n in cfg.providers ==>
              (TreatedAlike(WithOutcomes(cfg, fetched, built), n) <==> TreatedAlike(cfg, n))
  {
    var c := WithOutcomes(cfg, fetched, built);
    assert forall n, m :: c.Needs(n, m) <==> cfg.Needs(n, m);
    assert forall n :: n in cfg.providers ==> c.providers[n].gate == cfg.providers[n].gate;
  }

  lemma OneFailureStopsSerial(c: Config, g: Name, st: map<Name, State>)
    requires c.Valid() && g in c.providers && c.providers[g].gate.supportsHost
    requires Failed(SerialResult(c, g))
    ensures !SerialRun(c, c.deps, st, []).ok
  {
    SerialRunMeaning(c, c.deps, st, []);
    assert g in c.deps;
  }

  /** Work that only the serial mode asks for can fail there alone. */
  lemma UnlikeDisagrees(cfg: Config, g: Name) returns (fetched: set<Name>, built: set<Name>)
    requires Planned(cfg) && g in cfg.providers && !TreatedAlike(cfg, g)
    ensures Planned(WithOutcomes(cfg, fetched, built)) && !SameVerdict(WithOutcomes(cfg, fetched, built))
  {
    built := cfg.providers.Keys - {g};
    fetched := if Provisioned(cfg.providers[g].gate) then built else cfg.providers.Keys;
    var c := WithOutcomes(cfg, fetched, built);
    StillPlanned(cfg, fetched, built);
    OneFailureStopsSerial(c, g, PlanState(c.providers));
    assert AllWorkOk(c);
    SuccessIffAllWorkOk(c);
  }

  ghost predicate AlwaysSameVerdict(cfg: Config) {
    forall fetched, built ::
      var c := WithOutcomes(cfg, fetched, built); c.Valid() && SameVerdict(c)
  }

  /** The two modes agree whatever the outcomes turn out to be, exactly when they treat all deps alike. */
  lemma AgreeIffTreatedAlike(cfg: Config)
    requires Planned(cfg)
    ensures AlwaysSameVerdict(cfg) <==> AllTreatedAlike(cfg)
  {
    if AllTreatedAlike(cfg) {
      forall fetched, built
        ensures Planned(WithOutcomes(cfg, fetched, built)) && SameVerdict(WithOutcomes(cfg, fetched, built))
      {
        StillPlanned(cfg, fetched, built);
        SerialAgrees(WithOutcomes(cfg, fetched, built));
      }
    } else {
      var g :| g in cfg.providers && !TreatedAlike(cfg, g);
      var fetched, built := UnlikeDisagrees(cfg, g);
    }
  }

  /** Without --fetch-only and --prefetch, that means: no dep in place is rebuilt incrementally. */
  lemma BuildModeAlike(cfg: Config)
    requires !cfg.fetchOnly && cfg.fetchOnlySet == {}
    ensures AllTreatedAlike(cfg) <==> forall n :: n in cfg.providers ==> !Overlooked(cfg.providers[n].gate)
  {
    assert forall n :: n in cfg.providers ==> (TreatedAlike(cfg, n) <==> !Overlooked(cfg.providers[n].gate));
  }

  /** Phase 1 passes over this dep although should_build asks for it: an incremental rebuild. */
  predicate Overlooked(g: Gate) {
    g.supportsHost && g.incremental && g.manifest && !g.force && !g.wipe
  }

  /** With --fetch-only it means: no dep this host supports is in place already. */
  lemma FetchModeAlike(cfg: Config)
    requires cfg.fetchOnly
    ensures AllTreatedAlike(cfg)
       <==> forall n :: n in cfg.providers && cfg.providers[n].gate.supportsHost ==> !Provisioned(cfg.providers[n].gate)
  {
    assert forall n :: n in cfg.providers ==>
      (TreatedAlike(cfg, n) <==> !(cfg.providers[n].gate.supportsHost && Provisioned(cfg.providers[n].gate)));
  }
}
