/** The scheduler object itself: dictionaries and lists updated in place, as the program does it. */
module PipelineScheduler {
  import opened Basics
  import M = PipelineModel
  import opened PipelineModel
  import opened PipelineOutcome
  import opened PipelineInvariant
  import opened PipelineProgress
  import opened PipelineSafety

  /** The Boolean of phase2_execute: every dep this host supports has reached its goal. */
  ghost predicate Complete(cfg: Config, st: map<Name, State>) {
    forall n :: n in cfg.deps && n in cfg.providers && cfg.providers[n].gate.supportsHost ==>
      Is(st, n, Done) || (Is(st, n, SourceReady) && (cfg.fetchOnly || n in cfg.fetchOnlySet))
  }

  /** A dep this host does not support has no say in it, whatever its state. */
  lemma UnsupportedHaveNoSay(cfg: Config, st: map<Name, State>, n: Name, x: State)
    requires cfg.Valid() && n in cfg.providers && !cfg.providers[n].gate.supportsHost
    ensures Complete(cfg, st[n := x]) <==> Complete(cfg, st)
  {
  }

  /** One step of the build dispatch, by position in the list. */
  lemma BuildPassFrom(cfg: Config, order: seq<Name>, i: nat, avail: nat, p: Pass)
    requires (forall n :: n in order ==> n in cfg.providers) && i < |order| && |p.sys.toBuild| < avail
    ensures var q := AfterLook(cfg, p, order[i]);
      BuildPass(cfg, order[i..], avail, p)
      == if StopsAfter(cfg, p, order[i]) then q else BuildPass(cfg, order[i + 1..], avail, q)
  {
    assert order[i..][0] == order[i] && order[i..][1..] == order[i + 1..];
  }

  /** With nothing marked and nothing in a pool, a tick changes something. */
  lemma EmptyPoolsIdle(cfg: Config, init: map<Name, State>, s: Sys)
    requires cfg.Valid() && Inv(cfg, init, s) && Enabled(cfg, s, TickNow)
    ensures s.fetchPool == multiset{} && s.buildPool == multiset{} ==> Measure(Tick(cfg, s)) < Measure(s)
  {
    if s.fetchPool == multiset{} && s.buildPool == multiset{} {
      assert InState(s.st, Fetching) == {} by {
        forall n | n in s.st ensures s.st[n] != Fetching { assert s.fetchPool[n] == 0; }
      }
      assert InState(s.st, Building) == {} by {
        forall n | n in s.st ensures s.st[n] != Building { assert s.buildPool[n] == 0; }
      }
      IdleTickActs(cfg, init, s);
      TickMovesOn(cfg, s);
    }
  }

  // ---- what each event of the loop does to the run ----

  lemma SubmitFetchGoesOn(cfg: Config, init: map<Name, State>, s: Sys)
    requires Inv(cfg, init, s) && s.toFetch != []
    ensures Inv(cfg, init, SubmitFetch(s)) && Measure(SubmitFetch(s)) < Measure(s)
  {
    SubmitFetchKeeps(cfg, init, s);
  }

  lemma SubmitBuildGoesOn(cfg: Config, init: map<Name, State>, s: Sys)
    requires Inv(cfg, init, s) && s.toBuild != []
    ensures Inv(cfg, init, SubmitBuild(s)) && Measure(SubmitBuild(s)) < Measure(s)
  {
    SubmitBuildKeeps(cfg, init, s);
  }

  lemma FetchGoesOn(cfg: Config, init: map<Name, State>, s: Sys, n: Name)
    requires Inv(cfg, init, s) && n in s.fetchPool
    ensures n in cfg.providers
    ensures var t := CommitFetch(cfg, s, n, cfg.providers[n].fetchOk); Inv(cfg, init, t) && Measure(t) < Measure(s)
  {
    InPool(cfg, s, n);
    CommitFetchKeeps(cfg, init, s, n);
    FetchCommitMovesOn(cfg, s, n, cfg.providers[n].fetchOk);
  }

  lemma BuildGoesOn(cfg: Config, init: map<Name, State>, s: Sys, n: Name)
    requires Inv(cfg, init, s) && n in s.buildPool
    ensures n in cfg.providers
    ensures var t := CommitBuild(s, n, cfg.providers[n].buildOk); Inv(cfg, init, t) && Measure(t) < Measure(s)
  {
    InPool(cfg, s, n);
    CommitBuildKeeps(cfg, init, s, n);
    BuildCommitMovesOn(s, n, cfg.providers[n].buildOk);
  }

  lemma InPool(cfg: Config, s: Sys, n: Name)
    requires Shape(cfg, s)
    ensures n in s.fetchPool ==> n in cfg.providers && Is(s.st, n, Fetching)
    ensures n in s.buildPool ==> n in cfg.providers && Is(s.st, n, Building)
  {
    assert n in s.fetchPool ==> s.fetchPool[n] > 0;
    assert n in s.buildPool ==> s.buildPool[n] > 0;
  }

  lemma TickGoesOn(cfg: Config, init: map<Name, State>, s: Sys)
    requires cfg.Valid() && Inv(cfg, init, s) && Enabled(cfg, s, TickNow)
    ensures Inv(cfg, init, Tick(cfg, s)) && Measure(Tick(cfg, s)) <= Measure(s)
    ensures s.fetchPool == multiset{} && s.buildPool == multiset{} ==> Measure(Tick(cfg, s)) < Measure(s)
  {
    EmptyPoolsIdle(cfg, init, s);
    TickKeeps(cfg, init, s);
    TickMovesOn(cfg, s);
  }

  lemma AtReturn(cfg: Config, init: map<Name, State>, s: Sys)
    requires Inv(cfg, init, s) && s.returned
    ensures s.st == Final(cfg, init) && NothingInFlight(s)
  {
    ReturnedOutcome(cfg, init, s);
    EmptyPools(cfg, s);
  }

  class Scheduler {
    const cfg: Config
    var state: map<Name, State>
    var toFetch: seq<Name>
    var toBuild: seq<Name>
    var fetchPool: multiset<Name>
    var buildPool: multiset<Name>
    var recent: seq<Entry>
    var returned: bool
    ghost var fetchLog: seq<Name>
    ghost var buildLog: seq<Name>
    ghost var history: seq<Entry>

    ghost function Model(): Sys
      reads this
    {
      Sys(state, toFetch, toBuild, fetchPool, buildPool, fetchLog, buildLog, history, recent, returned)
    }

    ghost predicate Listed()
      reads this
    {
      cfg.Valid() && state.Keys == cfg.providers.Keys
    }

    constructor (cfg: Config, init: map<Name, State>)
      ensures this.cfg == cfg && Model() == Start(init)
    {
      this.cfg := cfg;
      state, toFetch, toBuild := init, [], [];
      fetchPool, buildPool, recent, returned := multiset{}, multiset{}, [], false;
      fetchLog, buildLog, history := [], [], [];
    }

    method CountState(x: State) returns (count: nat)
      ensures count == |InState(state, x)|
    {
      var todo := state.Keys;
      count := 0;
      ghost var seen: set<Name> := {};
      while todo != {}
        invariant todo <= state.Keys && count == |seen|
        invariant forall n :: n in seen <==> n in state && n !in todo && state[n] == x
        decreases todo
      {
        var n :| n in todo;
        todo := todo - {n};
        if state[n] == x {
          count := count + 1;
          seen := seen + {n};
        }
      }
      assert seen == InState(state, x);
    }

    method PrereqsAreDone(n: Name) returns (done: bool)
      requires n in cfg.providers
      ensures done <==> PrereqsDone(cfg, state, n)
    {
      var required := cfg.providers[n].required;
      for i := 0 to |required|
        invariant forall m :: Some(m) in required[..i] ==> Is(state, m, Done)
      {
        assert cfg.Needs(n, if required[i].Some? then required[i].value else n) || required[i].None?;
        match required[i] {
          case None =>
          case Some(m) =>
            if m !in state || state[m] != Done {
              return false;
            }
        }
      }
      assert required[..|required|] == required;
      return true;
    }

    method SomePrereqFailed(n: Name) returns (failed: bool)
      requires n in cfg.providers
      ensures failed <==> AnyPrereqFailed(cfg, state, n)
    {
      var required := cfg.providers[n].required;
      for i := 0 to |required|
        invariant forall m :: Some(m) in required[..i] ==> !Is(state, m, FetchFailed) && !Is(state, m, BuildFailed)
      {
        match required[i] {
          case None =>
          case Some(m) =>
            if m in state && (state[m] == FetchFailed || state[m] == BuildFailed) {
              assert cfg.Needs(n, m);
              return true;
            }
        }
      }
      assert required[..|required|] == required;
      return false;
    }

    method Completed(n: Name, x: State)
      modifies this`state, this`recent, this`history
      ensures Model() == Report(old(Model()), n, x)
    {
      state := state[n := x];
      recent := recent + [Entry(n, x)];
      if |recent| > RECENT_MAX {
        recent := recent[|recent| - RECENT_MAX..];
      }
      history := history + [Entry(n, x)];
    }

    method DispatchFetches(inFlight: nat) returns (nFetching: nat)
      requires Listed()
      modifies this`state, this`toFetch
      ensures Pass(Model(), nFetching)
           == FetchPass(cfg, cfg.deps, Free(cfg.fetchJobs, inFlight), Pass(old(Model()), inFlight))
      ensures Listed()
    {
      nFetching := inFlight;
      var avail := Free(cfg.fetchJobs, inFlight);
      ghost var goal := FetchPass(cfg, cfg.deps, avail, Pass(Model(), inFlight));
      for i := 0 to |cfg.deps|
        invariant Listed()
        invariant FetchPass(cfg, cfg.deps[i..], avail, Pass(Model(), nFetching)) == goal
      {
        if |toFetch| >= avail {
          return;
        }
        var n := cfg.deps[i];
        ghost var rest := cfg.deps[i..];
        assert rest[0] == n && rest[1..] == cfg.deps[i + 1..];
        if state[n] != Pending || (cfg.providers[n].serialFetch && nFetching > 0) {
          continue;
        }
        toFetch := toFetch + [n];
        state := state[n := Fetching];
        nFetching := nFetching + 1;
        if cfg.providers[n].serialFetch {
          return;
        }
      }
    }

    method Launched(n: Name)
      modifies this`state, this`toBuild
      ensures Model() == MarkBuild(old(Model()), n)
    {
      toBuild := toBuild + [n];
      state := state[n := Building];
    }

    /** What the build dispatch does with one dep. */
    method Consider(n: Name, nBuilding: nat) returns (choice: Choice)
      requires n in cfg.providers && n in state
      ensures choice == BuildChoice(cfg, Pass(Model(), nBuilding), n)
    {
      if state[n] != SourceReady || n in cfg.fetchOnlySet {
        return Skip;
      }
      var ready := PrereqsAreDone(n);
      if !ready {
        var failed := SomePrereqFailed(n);
        return if failed then Blame else Skip;
      }
      return if cfg.providers[n].serialBuild && nBuilding > 0 then Skip else Launch;
    }

    method ConsiderAndAct(n: Name, inFlight: nat) returns (nBuilding: nat, stop: bool)
      requires Listed() && n in cfg.providers
      modifies this`state, this`toBuild, this`recent, this`history
      ensures Pass(Model(), nBuilding) == AfterLook(cfg, Pass(old(Model()), inFlight), n)
      ensures stop <==> StopsAfter(cfg, Pass(old(Model()), inFlight), n)
      ensures Listed()
    {
      nBuilding := inFlight;
      var choice := Consider(n, nBuilding);
      match choice {
        case Skip =>
        case Blame =>
          Completed(n, BuildFailed);
        case Launch =>
          Launched(n);
          nBuilding := nBuilding + 1;
      }
      stop := choice == Launch && cfg.providers[n].serialBuild;
    }

    method DispatchBuilds(inFlight: nat) returns (nBuilding: nat)
      requires Listed()
      modifies this`state, this`toBuild, this`recent, this`history
      ensures Pass(Model(), nBuilding)
           == BuildPass(cfg, ByPriority(cfg), Free(cfg.buildJobs, inFlight), Pass(old(Model()), inFlight))
      ensures Listed()
    {
      nBuilding := inFlight;
      var avail := Free(cfg.buildJobs, inFlight);
      var order := ByPriority(cfg);
      ghost var goal := BuildPass(cfg, order, avail, Pass(Model(), inFlight));
      for i := 0 to |order|
        invariant Listed()
        invariant BuildPass(cfg, order[i..], avail, Pass(Model(), nBuilding)) == goal
      {
        if |toBuild| >= avail {
          return;
        }
        var n := order[i];
        BuildPassFrom(cfg, order, i, avail, Pass(Model(), nBuilding));
        var stop;
        nBuilding, stop := ConsiderAndAct(n, nBuilding);
        if stop {
          return;
        }
      }
    }

    method StuckDeps() returns (stuck: set<Name>)
      ensures stuck == set n | n in state && !IsTerminal(cfg, n, state[n])
    {
      var todo := state.Keys;
      stuck := {};
      while todo != {}
        invariant todo <= state.Keys
        invariant stuck == set n | n in state && n !in todo && !IsTerminal(cfg, n, state[n])
        decreases todo
      {
        var n :| n in todo;
        todo := todo - {n};
        if !IsTerminal(cfg, n, state[n]) {
          stuck := stuck + {n};
        }
      }
    }

    method GiveUp(stuck: set<Name>)
      requires stuck == set n | n in state && !IsTerminal(cfg, n, state[n])
      modifies this`state
      ensures Model() == M.Sweep(cfg, old(Model()))
    {
      var todo := stuck;
      while todo != {}
        invariant todo <= stuck && state.Keys == old(state).Keys
        invariant forall n :: n in state ==>
          state[n] == if n in stuck && n !in todo then BuildFailed else old(state)[n]
        decreases todo
      {
        var n :| n in todo;
        todo := todo - {n};
        state := state[n := BuildFailed];
      }
      assert state == M.Sweep(cfg, old(Model())).st;
    }

    /** One pass of the dispatch loop under the lock. */
    method Tick()
      requires Listed() && Enabled(cfg, Model(), TickNow)
      modifies this
      ensures Model() == M.Tick(cfg, old(Model()))
    {
      var nFetching := CountState(Fetching);
      var nBuilding := CountState(Building);
      assert Model() == Model().(toFetch := [], toBuild := []);
      nFetching := DispatchFetches(nFetching);
      assert Pass(Model(), nFetching) == M.TickFetches(cfg, old(Model()));
      if !cfg.fetchOnly {
        nBuilding := DispatchBuilds(nBuilding);
      }
      assert Pass(Model(), nBuilding) == M.TickBuilds(cfg, old(Model()));
      var stuck := StuckDeps();
      assert stuck == {} <==> AllTerminal(cfg, state) by {
        assert forall n :: n in stuck <==> n in state && !IsTerminal(cfg, n, state[n]);
      }
      if stuck == {} {
        returned := true;
      } else if toFetch == [] && toBuild == [] && nFetching == 0 && nBuilding == 0 {
        GiveUp(stuck);
        returned := true;
      }
    }

    method SubmitNextFetch()
      requires toFetch != []
      modifies this`toFetch, this`fetchPool, this`fetchLog
      ensures Model() == SubmitFetch(old(Model()))
    {
      fetchPool := fetchPool + multiset{toFetch[0]};
      fetchLog := fetchLog + [toFetch[0]];
      toFetch := toFetch[1..];
    }

    method SubmitNextBuild()
      requires toBuild != []
      modifies this`toBuild, this`buildPool, this`buildLog
      ensures Model() == SubmitBuild(old(Model()))
    {
      buildPool := buildPool + multiset{toBuild[0]};
      buildLog := buildLog + [toBuild[0]];
      toBuild := toBuild[1..];
    }

    /** A fetch worker takes the lock to record how its fetch went. */
    method FinishFetch(n: Name, ok: bool)
      modifies this`state, this`fetchPool, this`recent, this`history
      ensures Model() == CommitFetch(cfg, old(Model()), n, ok)
    {
      fetchPool := fetchPool - multiset{n};
      var newState := if ok then SourceReady else FetchFailed;
      if newState == FetchFailed || n in cfg.fetchOnlySet {
        Completed(n, newState);
      } else {
        state := state[n := newState];
      }
    }

    /** A build worker takes the lock to record how its build went. */
    method FinishBuild(n: Name, ok: bool)
      modifies this`state, this`buildPool, this`recent, this`history
      ensures Model() == CommitBuild(old(Model()), n, ok)
    {
      buildPool := buildPool - multiset{n};
      Completed(n, if ok then Done else BuildFailed);
    }

    method AllComplete() returns (ok: bool)
      requires Listed()
      ensures ok <==> Complete(cfg, state)
    {
      for i := 0 to |cfg.deps|
        invariant forall n :: n in cfg.deps[..i] && cfg.providers[n].gate.supportsHost ==>
          Is(state, n, Done) || (Is(state, n, SourceReady) && (cfg.fetchOnly || n in cfg.fetchOnlySet))
      {
        var n := cfg.deps[i];
        if cfg.providers[n].gate.supportsHost {
          var fetchSuffices := cfg.fetchOnly || n in cfg.fetchOnlySet;
          if !(state[n] == Done || (state[n] == SourceReady && fetchSuffices)) {
            return false;
          }
        }
      }
      assert cfg.deps[..|cfg.deps|] == cfg.deps;
      return true;
    }

    /**
     The whole concurrent phase.  Which worker finishes next, and how often the loop wakes up in vain
     (at most `patience` times here), is left open.
     */
    method Phase2Execute(ghost init: map<Name, State>, patience: nat) returns (ok: bool)
      requires cfg.Valid() && Initial(cfg, init) && Model() == Start(init)
      modifies this
      ensures returned && state == Final(cfg, init) && NothingInFlight(Model())
      ensures ok <==> Complete(cfg, Final(cfg, init))
    {
      StartInv(cfg, init);
      var idle := patience;
      while !returned
        invariant Inv(cfg, init, Model())
        decreases Measure(Model()), idle
      {
        ghost var before := Model();
        if
        case toFetch != [] =>
          SubmitNextFetch();
          SubmitFetchGoesOn(cfg, init, before);
        case toFetch == [] && toBuild != [] =>
          SubmitNextBuild();
          SubmitBuildGoesOn(cfg, init, before);
        case fetchPool != multiset{} =>
          var n :| n in fetchPool;
          FetchGoesOn(cfg, init, before, n);
          FinishFetch(n, cfg.providers[n].fetchOk);
        case buildPool != multiset{} =>
          var n :| n in buildPool;
          BuildGoesOn(cfg, init, before, n);
          FinishBuild(n, cfg.providers[n].buildOk);
        case toFetch == [] && toBuild == [] && (idle > 0 || (fetchPool == multiset{} && buildPool == multiset{})) =>
          TickGoesOn(cfg, init, before);
          Tick();
          idle := if idle > 0 then idle - 1 else 0;
      }
      AtReturn(cfg, init, Model());
      ok := AllComplete();
    }
  }
}
