/** Every run of the scheduler is short and can always be finished. */
module PipelineProgress {
  import opened PipelineModel
  import opened PipelineInvariant

  /** How many state changes a dep in this state still has ahead of it, at most. */
  function Ahead(x: State): nat {
    match x
    case Pending => 4
    case Fetching => 3
    case SourceReady => 2
    case Building => 1
    case _ => 0
  }

  function Weight(st: map<Name, State>): nat {
    4 * |InState(st, Pending)| + 3 * |InState(st, Fetching)| + 2 * |InState(st, SourceReady)| + |InState(st, Building)|
  }

  function Measure(s: Sys): nat {
    2 * Weight(s.st) + |s.toFetch| + |s.toBuild| + if s.returned then 0 else 1
  }

  lemma WeightMove(st: map<Name, State>, n: Name, x: State)
    requires n in st
    ensures Weight(st[n := x]) == Weight(st) - Ahead(st[n]) + Ahead(x)
  {
    Recount(st, n, x, Pending);
    Recount(st, n, x, Fetching);
    Recount(st, n, x, SourceReady);
    Recount(st, n, x, Building);
  }

  lemma WeightBound(st: map<Name, State>)
    ensures Weight(st) <= 4 * |st|
  {
    var a, b, c, d := InState(st, Pending), InState(st, Fetching), InState(st, SourceReady), InState(st, Building);
    assert a + b + c + d <= st.Keys;
    assert a !! b && (a + b) !! c && (a + b + c) !! d;
    assert |a + b + c + d| == |a| + |b| + |c| + |d|;
    Subset(a + b + c + d, st.Keys);
  }

  lemma {:induction false} Subset<T>(a: set<T>, b: set<T>)
    requires a <= b
    ensures |a| <= |b|
  {
    if a != {} {
      var x :| x in a;
      Subset(a - {x}, b - {x});
    }
  }

  lemma {:induction false} FetchPassWeight(cfg: Config, todo: seq<Name>, avail: nat, p: Pass)
    requires forall n :: n in todo ==> n in cfg.providers
    ensures var r := FetchPass(cfg, todo, avail, p);
      && Weight(r.sys.st) + |r.sys.toFetch| == Weight(p.sys.st) + |p.sys.toFetch|
      && (|r.sys.toFetch| > |p.sys.toFetch| || r == p)
      && r.sys == p.sys.(st := r.sys.st, toFetch := r.sys.toFetch)
    decreases |todo|
  {
    if todo != [] && |p.sys.toFetch| < avail {
      if SkipsFetch(cfg, p, todo[0]) {
        FetchPassWeight(cfg, todo[1..], avail, p);
      } else {
        WeightMove(p.sys.st, todo[0], Fetching);
        FetchPassWeight(cfg, todo[1..], avail, Pass(MarkFetch(p.sys, todo[0]), p.inFlight + 1));
      }
    }
  }

  lemma {:induction false} BuildPassWeight(cfg: Config, todo: seq<Name>, avail: nat, p: Pass)
    requires forall n :: n in todo ==> n in cfg.providers
    ensures var r := BuildPass(cfg, todo, avail, p);
      && Weight(r.sys.st) + |r.sys.toBuild| <= Weight(p.sys.st) + |p.sys.toBuild|
      && (Weight(r.sys.st) < Weight(p.sys.st) || r == p)
      && r.sys == p.sys.(st := r.sys.st, toBuild := r.sys.toBuild, history := r.sys.history, recent := r.sys.recent)
    decreases |todo|
  {
    if todo != [] && |p.sys.toBuild| < avail {
      match BuildChoice(cfg, p, todo[0]) {
        case Skip =>
          BuildPassWeight(cfg, todo[1..], avail, p);
        case Blame =>
          WeightMove(p.sys.st, todo[0], BuildFailed);
          BuildPassWeight(cfg, todo[1..], avail, p.(sys := Report(p.sys, todo[0], BuildFailed)));
        case Launch =>
          WeightMove(p.sys.st, todo[0], Building);
          BuildPassWeight(cfg, todo[1..], avail, Pass(MarkBuild(p.sys, todo[0]), p.inFlight + 1));
      }
    }
  }

  lemma SweepWeight(cfg: Config, s: Sys)
    ensures Weight(Sweep(cfg, s).st) < Weight(s.st) || Sweep(cfg, s).st == s.st
  {
    var t := Sweep(cfg, s);
    Subset(InState(t.st, Pending), InState(s.st, Pending));
    Subset(InState(t.st, Fetching), InState(s.st, Fetching));
    Subset(InState(t.st, SourceReady), InState(s.st, SourceReady));
    Subset(InState(t.st, Building), InState(s.st, Building));
    if t.st != s.st {
      var n :| n in s.st && !IsTerminal(cfg, n, s.st[n]);
      var x := s.st[n];
      assert n in InState(s.st, x) && n !in InState(t.st, x);
      Subset(InState(t.st, x), InState(s.st, x) - {n});
    }
  }

  /** An event either changes nothing, or brings the end of the run closer; states only move forward. */
  ghost predicate MovesOn(s: Sys, t: Sys) {
    && (t == s || Measure(t) < Measure(s))
    && (t.st == s.st || Weight(t.st) < Weight(s.st))
  }

  /** The dispatch of a tick, before it is decided whether the loop ends. */
  lemma DispatchMovesOn(cfg: Config, s: Sys)
    requires cfg.Valid() && Enabled(cfg, s, TickNow)
    ensures MovesOn(s, TickBuilds(cfg, s).sys) && !TickBuilds(cfg, s).sys.returned
  {
    var p := Pass(s.(toFetch := [], toBuild := []), |InState(s.st, Fetching)|);
    assert p.sys == s;
    FetchPassWeight(cfg, cfg.deps, Free(cfg.fetchJobs, p.inFlight), p);
    if !cfg.fetchOnly {
      var nb := |InState(s.st, Building)|;
      BuildPassWeight(cfg, ByPriority(cfg), Free(cfg.buildJobs, nb), Pass(TickFetches(cfg, s).sys, nb));
    }
  }

  /** Returning counts as a step forward, with or without a sweep. */
  lemma ReturnMovesOn(cfg: Config, s: Sys, b: Sys)
    requires MovesOn(s, b) && !b.returned
    ensures MovesOn(s, b.(returned := true)) && MovesOn(s, Sweep(cfg, b).(returned := true))
  {
    SweepWeight(cfg, b);
  }

  lemma TickMovesOn(cfg: Config, s: Sys)
    requires cfg.Valid() && Enabled(cfg, s, TickNow)
    ensures MovesOn(s, Tick(cfg, s))
  {
    DispatchMovesOn(cfg, s);
    ReturnMovesOn(cfg, s, TickBuilds(cfg, s).sys);
  }

  lemma CommitMovesOn(s: Sys, n: Name, x: State, t: Sys)
    requires n in s.st && Ahead(x) < Ahead(s.st[n]) && t.st == s.st[n := x]
    requires t.toFetch == s.toFetch && t.toBuild == s.toBuild && t.returned == s.returned
    ensures MovesOn(s, t) && Measure(t) < Measure(s)
  {
    WeightMove(s.st, n, x);
  }

  lemma FetchCommitMovesOn(cfg: Config, s: Sys, n: Name, ok: bool)
    requires Is(s.st, n, Fetching)
    ensures var t := CommitFetch(cfg, s, n, ok); MovesOn(s, t) && Measure(t) < Measure(s)
  {
    CommitMovesOn(s, n, if ok then SourceReady else FetchFailed, CommitFetch(cfg, s, n, ok));
  }

  lemma BuildCommitMovesOn(s: Sys, n: Name, ok: bool)
    requires Is(s.st, n, Building)
    ensures var t := CommitBuild(s, n, ok); MovesOn(s, t) && Measure(t) < Measure(s)
  {
    CommitMovesOn(s, n, if ok then Done else BuildFailed, CommitBuild(s, n, ok));
  }

  lemma ApplyMovesOn(cfg: Config, s: Sys, e: Event)
    requires cfg.Valid() && Shape(cfg, s) && Enabled(cfg, s, e)
    ensures MovesOn(s, Apply(cfg, s, e))
    ensures e.TickNow? || Measure(Apply(cfg, s, e)) < Measure(s)
  {
    match e {
      case TickNow => TickMovesOn(cfg, s);
      case HandOverFetch =>
      case HandOverBuild =>
      case FetchFinished(n) =>
        assert s.fetchPool[n] > 0;
        FetchCommitMovesOn(cfg, s, n, cfg.providers[n].fetchOk);
      case BuildFinished(n) =>
        assert s.buildPool[n] > 0;
        BuildCommitMovesOn(s, n, cfg.providers[n].buildOk);
    }
  }

  /** The events of a run that change something, and those that change a dep's state. */
  ghost function Moves(cfg: Config, s: Sys, events: seq<Event>): nat
    requires cfg.Valid() && Allowed(cfg, s, events)
    decreases |events|
  {
    if events == [] then 0
    else var t := Apply(cfg, s, events[0]); (if t == s then 0 else 1) + Moves(cfg, t, events[1..])
  }

  ghost function StateChanges(cfg: Config, s: Sys, events: seq<Event>): nat
    requires cfg.Valid() && Allowed(cfg, s, events)
    decreases |events|
  {
    if events == [] then 0
    else var t := Apply(cfg, s, events[0]); (if t.st == s.st then 0 else 1) + StateChanges(cfg, t, events[1..])
  }

  lemma {:induction false} ExecMovesOn(cfg: Config, init: map<Name, State>, s: Sys, events: seq<Event>)
    requires cfg.Valid() && Inv(cfg, init, s) && Allowed(cfg, s, events)
    ensures Moves(cfg, s, events) + Measure(Exec(cfg, s, events)) <= Measure(s)
    ensures StateChanges(cfg, s, events) + Weight(Exec(cfg, s, events).st) <= Weight(s.st)
    decreases |events|
  {
    if events != [] {
      ApplyMovesOn(cfg, s, events[0]);
      ApplyKeeps(cfg, init, s, events[0]);
      ExecMovesOn(cfg, init, Apply(cfg, s, events[0]), events[1..]);
    }
  }

  /** However the workers interleave, only boundedly many events of a run are not idle ticks. */
  lemma RunsAreShort(cfg: Config, init: map<Name, State>, events: seq<Event>)
    requires cfg.Valid() && Initial(cfg, init) && Allowed(cfg, Start(init), events)
    ensures StateChanges(cfg, Start(init), events) <= 4 * |cfg.providers|
    ensures Moves(cfg, Start(init), events) <= 8 * |cfg.providers| + 1
  {
    StartInv(cfg, init);
    ExecMovesOn(cfg, init, Start(init), events);
    WeightBound(init);
    assert |init| == |init.Keys| == |cfg.providers.Keys| == |cfg.providers|;
  }

  lemma IdleFetchCount(cfg: Config, s: Sys)
    requires cfg.Valid() && InState(s.st, Fetching) == {}
    ensures var f := TickFetches(cfg, s);
      f.inFlight == |f.sys.toFetch| && f.sys.toBuild == [] && InState(f.sys.st, Building) == InState(s.st, Building)
  {
    var p := Pass(s.(toFetch := [], toBuild := []), 0);
    FetchPassEffect(cfg, cfg.deps, Free(cfg.fetchJobs, 0), p);
    FetchPassBuilding(cfg, cfg.deps, Free(cfg.fetchJobs, 0), p);
  }

  lemma IdleBuildCount(cfg: Config, s: Sys)
    requires cfg.Valid() && InState(s.st, Fetching) == {} && InState(s.st, Building) == {}
    ensures var f, b := TickFetches(cfg, s), TickBuilds(cfg, s);
      b.inFlight == |b.sys.toBuild| && b.sys.toFetch == f.sys.toFetch
  {
    IdleFetchCount(cfg, s);
    if !cfg.fetchOnly {
      BuildPassEffect(cfg, ByPriority(cfg), Free(cfg.buildJobs, 0), Pass(TickFetches(cfg, s).sys, 0));
    }
  }

  /** A tick with nothing in flight dispatches work or returns, even when the graph has cycles. */
  lemma IdleTickActs(cfg: Config, init: map<Name, State>, s: Sys)
    requires cfg.Valid() && Inv(cfg, init, s) && Enabled(cfg, s, TickNow)
    requires InState(s.st, Fetching) == {} && InState(s.st, Building) == {}
    ensures var t := Tick(cfg, s); t.returned || t.toFetch != [] || t.toBuild != []
  {
    IdleFetchCount(cfg, s);
    IdleBuildCount(cfg, s);
  }

  lemma {:induction false} SomethingIsEnabled(cfg: Config, init: map<Name, State>, s: Sys) returns (e: Event)
    requires cfg.Valid() && Inv(cfg, init, s) && !s.returned
    ensures Enabled(cfg, s, e)
    ensures e.TickNow? ==> InState(s.st, Fetching) == {} && InState(s.st, Building) == {}
  {
    if s.toFetch != [] {
      e := HandOverFetch;
    } else if s.toBuild != [] {
      e := HandOverBuild;
    } else if n :| n in InState(s.st, Fetching) {
      assert s.fetchPool[n] == 1;
      e := FetchFinished(n);
    } else if n :| n in InState(s.st, Building) {
      assert s.buildPool[n] == 1;
      e := BuildFinished(n);
    } else {
      e := TickNow;
    }
  }

  /** No deadlock: until the loop returns, some event brings the end closer. */
  lemma NeverStuck(cfg: Config, init: map<Name, State>, s: Sys) returns (e: Event)
    requires cfg.Valid() && Inv(cfg, init, s) && !s.returned
    ensures Enabled(cfg, s, e) && Measure(Apply(cfg, s, e)) < Measure(s)
  {
    e := SomethingIsEnabled(cfg, init, s);
    if e.TickNow? {
      IdleTickActs(cfg, init, s);
    }
    ApplyMovesOn(cfg, s, e);
  }

  /** From every reachable state the run can be completed. */
  lemma {:induction false} CanReturn(cfg: Config, init: map<Name, State>, s: Sys) returns (events: seq<Event>)
    requires cfg.Valid() && Inv(cfg, init, s)
    ensures Allowed(cfg, s, events) && Exec(cfg, s, events).returned
    decreases Measure(s)
  {
    if s.returned {
      events := [];
    } else {
      var e := NeverStuck(cfg, init, s);
      ApplyKeeps(cfg, init, s, e);
      var rest := CanReturn(cfg, init, Apply(cfg, s, e));
      events := [e] + rest;
      assert events[1..] == rest;
    }
  }
}
