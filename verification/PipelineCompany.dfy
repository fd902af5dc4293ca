/** When a running build gets company in the rest of a run. */
module PipelineCompany {
  import opened PipelineModel
  import opened PipelineInvariant
  import opened PipelineProgress
  import opened PipelineSafety
  import opened PipelineDispatch
  import opened PipelineOverlap

  /** The dep may join a running build now, or once its own fetch has gone well. */
  ghost predicate CanJoin(cfg: Config, st: map<Name, State>, n: Name) {
    && n in cfg.providers && !cfg.providers[n].serialBuild && n !in cfg.fetchOnlySet && PrereqsDone(cfg, st, n)
    && (Is(st, n, SourceReady) || ((Is(st, n, Pending) || Is(st, n, Fetching)) && cfg.providers[n].fetchOk))
  }

  ghost predicate Alone(s: Sys, lone: Name) {
    InState(s.st, Building) == {lone}
  }

  ghost predicate Overlaps(s: Sys, lone: Name) {
    Is(s.st, lone, Building) && exists n :: n != lone && Is(s.st, n, Building)
  }

  // ---- what a tick does while a build is running ----

  lemma {:induction false} FetchPassMoves(cfg: Config, todo: seq<Name>, avail: nat, p: Pass)
    requires forall n :: n in todo ==> n in cfg.providers
    ensures var r := FetchPass(cfg, todo, avail, p);
      && (forall n :: Is(r.sys.st, n, Fetching) ==> Is(p.sys.st, n, Fetching) || Is(p.sys.st, n, Pending))
      && (forall n :: Is(p.sys.st, n, Pending) ==> Is(r.sys.st, n, Pending) || Is(r.sys.st, n, Fetching))
      && (forall n :: Is(p.sys.st, n, Fetching) ==> Is(r.sys.st, n, Fetching))
    decreases |todo|
  {
    if todo != [] && |p.sys.toFetch| < avail {
      if SkipsFetch(cfg, p, todo[0]) {
        FetchPassMoves(cfg, todo[1..], avail, p);
      } else {
        FetchPassMoves(cfg, todo[1..], avail, Pass(MarkFetch(p.sys, todo[0]), p.inFlight + 1));
      }
    }
  }

  /** The states after the fetch dispatch, seen from before it. */
  ghost predicate FetchStep(st: map<Name, State>, next: map<Name, State>) {
    && (forall n, x :: x != Fetching && Is(next, n, x) ==> Is(st, n, x))
    && (forall n, x :: x != Pending && Is(st, n, x) ==> Is(next, n, x))
    && (forall n :: Is(next, n, Fetching) ==> Is(st, n, Fetching) || Is(st, n, Pending))
    && (forall n :: Is(st, n, Pending) ==> Is(next, n, Pending) || Is(next, n, Fetching))
  }

  lemma FetchesStep(cfg: Config, s: Sys)
    requires cfg.Valid()
    ensures FetchStep(s.st, TickFetches(cfg, s).sys.st)
    ensures InState(TickFetches(cfg, s).sys.st, Building) == InState(s.st, Building)
    ensures var r := TickFetches(cfg, s).sys; r == s.(st := r.st, toFetch := r.toFetch, toBuild := [])
  {
    var p := Pass(s.(toFetch := [], toBuild := []), |InState(s.st, Fetching)|);
    var avail := Free(cfg.fetchJobs, p.inFlight);
    FetchPassEffect(cfg, cfg.deps, avail, p);
    FetchPassMoves(cfg, cfg.deps, avail, p);
    FetchPassOnlyFetches(cfg, cfg.deps, avail, p);
    FetchPassBuilding(cfg, cfg.deps, avail, p);
  }

  /** The states after the build dispatch, seen from before it. */
  ghost predicate BuildStep(st: map<Name, State>, next: map<Name, State>) {
    && (forall n, x :: x != Building && x != BuildFailed && Is(next, n, x) ==> Is(st, n, x))
    && (forall n, x :: x != SourceReady && Is(st, n, x) ==> Is(next, n, x))
  }

  lemma BuildsStep(cfg: Config, s: Sys)
    requires cfg.Valid() && !cfg.fetchOnly
    ensures var f, b := TickFetches(cfg, s), TickBuilds(cfg, s);
      && BuildStep(f.sys.st, b.sys.st) && b.inFlight == |InState(b.sys.st, Building)|
      && |InState(b.sys.st, Building)| == |InState(s.st, Building)| + |b.sys.toBuild|
      && b.sys.toFetch == f.sys.toFetch && b.sys.returned == s.returned && b.sys.buildPool == s.buildPool
  {
    var nb := |InState(s.st, Building)|;
    FetchesStep(cfg, s);
    BuildPassEffect(cfg, ByPriority(cfg), Free(cfg.buildJobs, nb), Pass(TickFetches(cfg, s).sys, nb));
  }

  lemma NotEmpty<T>(s: set<T>, x: T)
    requires x in s
    ensures |s| > 0
  {
  }

  /** While a build is running, a tick neither returns nor gives up. */
  lemma TickOpen(cfg: Config, s: Sys, lone: Name)
    requires cfg.Valid() && !cfg.fetchOnly && Is(s.st, lone, Building)
    ensures Tick(cfg, s) == TickBuilds(cfg, s).sys && Is(Tick(cfg, s).st, lone, Building)
  {
    var f, b := TickFetches(cfg, s), TickBuilds(cfg, s);
    FetchesStep(cfg, s);
    BuildsStep(cfg, s);
    assert Is(f.sys.st, lone, Building) && Is(b.sys.st, lone, Building);
    NotEmpty(InState(b.sys.st, Building), lone);
  }

  /** The states a dep may have come from, and those it may go to, in a tick that leaves a build alone. */
  lemma TickSteps(cfg: Config, s: Sys, lone: Name, n: Name)
    requires cfg.Valid() && !cfg.fetchOnly && Is(s.st, lone, Building)
    ensures var st, next := s.st, Tick(cfg, s).st;
      && (forall x :: (x == Done || x == SourceReady || x == Pending) && Is(next, n, x) ==> Is(st, n, x))
      && (Is(next, n, Fetching) ==> Is(st, n, Fetching) || Is(st, n, Pending))
      && (Is(st, n, Pending) ==> Is(next, n, Pending) || Is(next, n, Fetching))
      && (Is(st, n, Done) ==> Is(next, n, Done))
  {
    FetchesStep(cfg, s);
    BuildsStep(cfg, s);
    TickOpen(cfg, s, lone);
    var mid, next := TickFetches(cfg, s).sys.st, Tick(cfg, s).st;
    assert FetchStep(s.st, mid) && BuildStep(mid, next);
  }

  lemma TickDone(cfg: Config, s: Sys, lone: Name, n: Name)
    requires cfg.Valid() && !cfg.fetchOnly && Is(s.st, lone, Building)
    ensures PrereqsDone(cfg, Tick(cfg, s).st, n) <==> PrereqsDone(cfg, s.st, n)
  {
    forall m ensures Is(Tick(cfg, s).st, m, Done) <==> Is(s.st, m, Done) {
      TickSteps(cfg, s, lone, m);
    }
  }

  // ---- company only comes to those who can have it ----

  ghost predicate HasEnded(st: map<Name, State>, n: Name) {
    exists x :: Terminal(x) && Is(st, n, x)
  }

  lemma BuildEnds(s: Sys, m: Name, ok: bool, lone: Name)
    requires Is(s.st, lone, Building)
    ensures var st := CommitBuild(s, m, ok).st; if m == lone then HasEnded(st, lone) else Is(st, lone, Building)
  {
    var x := if ok then Done else BuildFailed;
    assert Terminal(x) && Is(CommitBuild(s, m, ok).st, m, x);
  }

  /** The running build goes on, or ends for good. */
  lemma {:induction false} LoneStep(cfg: Config, s: Sys, e: Event, lone: Name)
    requires cfg.Valid() && Shape(cfg, s) && Enabled(cfg, s, e) && Is(s.st, lone, Building) && !cfg.fetchOnly
    ensures var st := Apply(cfg, s, e).st; Is(st, lone, Building) || (e == BuildFinished(lone) && HasEnded(st, lone))
  {
    match e {
      case TickNow => TickOpen(cfg, s, lone);
      case HandOverFetch =>
      case HandOverBuild =>
      case FetchFinished(m) => CommitLeaves(s.st, s.toFetch, s.fetchPool, Fetching, m, lone, Building);
      case BuildFinished(m) => BuildEnds(s, m, cfg.providers[m].buildOk, lone);
    }
  }

  lemma {:induction false} FetchFinishedBack(cfg: Config, s: Sys, m: Name, lone: Name, n: Name)
    requires Shape(cfg, s) && m in s.fetchPool && m in cfg.providers
    requires CanJoin(cfg, CommitFetch(cfg, s, m, cfg.providers[m].fetchOk).st, n)
    ensures CanJoin(cfg, s.st, n)
  {
    var t := CommitFetch(cfg, s, m, cfg.providers[m].fetchOk);
    assert s.fetchPool[m] > 0 && Is(s.st, m, Fetching);
    forall k | cfg.Needs(n, k) ensures Is(s.st, k, Done) {
      assert Is(t.st, k, Done);
    }
  }

  lemma AloneInPool(cfg: Config, s: Sys, lone: Name, m: Name)
    requires Shape(cfg, s) && Alone(s, lone) && m in s.buildPool
    ensures m == lone
  {
    assert s.buildPool[m] > 0 && Is(s.st, m, Building);
    assert m in InState(s.st, Building);
  }

  /** Whoever can join after a step that leaves the build alone could join before. */
  lemma {:induction false} CanJoinBack(cfg: Config, init: map<Name, State>, s: Sys, e: Event, lone: Name, n: Name)
    requires cfg.Valid() && Inv(cfg, init, s) && Enabled(cfg, s, e) && !cfg.fetchOnly
    requires Is(s.st, lone, Building) && Alone(s, lone) && Is(Apply(cfg, s, e).st, lone, Building)
    requires CanJoin(cfg, Apply(cfg, s, e).st, n)
    ensures CanJoin(cfg, s.st, n)
  {
    match e {
      case TickNow =>
        TickDone(cfg, s, lone, n);
        TickSteps(cfg, s, lone, n);
      case HandOverFetch =>
      case HandOverBuild =>
      case FetchFinished(m) => FetchFinishedBack(cfg, s, m, lone, n);
      case BuildFinished(m) => AloneInPool(cfg, s, lone, m);
    }
  }

  lemma NewIsMarked(st: map<Name, State>, next: map<Name, State>, marked: seq<Name>, pool: multiset<Name>, n: Name)
    requires Placed(st, [], pool, Building) && Placed(next, marked, pool, Building)
    requires !Is(st, n, Building) && Is(next, n, Building)
    ensures n in marked
  {
    assert pool[n] == 0;
  }

  lemma CommitsStartNothing(cfg: Config, s: Sys, m: Name, ok: bool, n: Name)
    requires !Is(s.st, n, Building)
    ensures !Is(CommitFetch(cfg, s, m, ok).st, n, Building) && !Is(CommitBuild(s, m, ok).st, n, Building)
  {
  }

  lemma {:induction false} OnlyTicksStart(cfg: Config, s: Sys, e: Event, n: Name)
    requires cfg.Valid() && Enabled(cfg, s, e) && !Is(s.st, n, Building) && !e.TickNow?
    ensures !Is(Apply(cfg, s, e).st, n, Building)
  {
    match e {
      case HandOverFetch =>
      case HandOverBuild =>
      case FetchFinished(m) => CommitsStartNothing(cfg, s, m, cfg.providers[m].fetchOk, n);
      case BuildFinished(m) => CommitsStartNothing(cfg, s, m, cfg.providers[m].buildOk, n);
    }
  }

  lemma {:induction false} TickStarts(cfg: Config, s: Sys, lone: Name, n: Name)
    requires cfg.Valid() && Shape(cfg, s) && Shape(cfg, Tick(cfg, s)) && s.toBuild == [] && !cfg.fetchOnly
    requires Is(s.st, lone, Building) && !Is(s.st, n, Building) && Is(Tick(cfg, s).st, n, Building)
    ensures n in Tick(cfg, s).toBuild
  {
    TickOpen(cfg, s, lone);
    BuildsStep(cfg, s);
    NewIsMarked(s.st, Tick(cfg, s).st, Tick(cfg, s).toBuild, s.buildPool, n);
  }

  /** A second build is one that a tick has launched. */
  lemma {:induction false} JoinedByTick(cfg: Config, init: map<Name, State>, s: Sys, e: Event, lone: Name, n: Name)
    requires cfg.Valid() && Inv(cfg, init, s) && Enabled(cfg, s, e) && !cfg.fetchOnly
    requires Is(s.st, lone, Building) && !Is(s.st, n, Building) && Is(Apply(cfg, s, e).st, n, Building)
    ensures e == TickNow && n in Tick(cfg, s).toBuild
  {
    if e == TickNow {
      TickKeeps(cfg, init, s);
      TickStarts(cfg, s, lone, n);
    } else {
      OnlyTicksStart(cfg, s, e, n);
    }
  }

  lemma {:induction false} LaunchedCanJoin(cfg: Config, s: Sys, lone: Name, n: Name)
    requires cfg.Valid() && s.st.Keys == cfg.providers.Keys && !cfg.fetchOnly
    requires Alone(s, lone) && n in Tick(cfg, s).toBuild
    ensures cfg.buildJobs > 1 && CanJoin(cfg, s.st, n)
  {
    LaunchedWasEligible(cfg, s, n);
    assert lone in InState(s.st, Building);
  }

  /** A step ends the lone build, or lets in somebody who could join, or leaves everybody else where they were. */
  lemma {:induction false} StepBack(cfg: Config, init: map<Name, State>, s: Sys, e: Event, lone: Name)
    requires cfg.Valid() && Inv(cfg, init, s) && Enabled(cfg, s, e) && !cfg.fetchOnly
    requires Is(s.st, lone, Building) && Alone(s, lone)
    ensures var t := Apply(cfg, s, e);
      || HasEnded(t.st, lone)
      || (cfg.buildJobs > 1 && exists n :: CanJoin(cfg, s.st, n))
      || (Is(t.st, lone, Building) && Alone(t, lone) && forall n :: CanJoin(cfg, t.st, n) ==> CanJoin(cfg, s.st, n))
  {
    var t := Apply(cfg, s, e);
    LoneStep(cfg, s, e, lone);
    if Is(t.st, lone, Building) {
      if Alone(t, lone) {
        forall n | CanJoin(cfg, t.st, n) ensures CanJoin(cfg, s.st, n) {
          CanJoinBack(cfg, init, s, e, lone, n);
        }
      } else {
        Another(t, lone);
        var n :| n != lone && Is(t.st, n, Building);
        NoOther(s, lone, n);
        JoinedByTick(cfg, init, s, e, lone, n);
        LaunchedCanJoin(cfg, s, lone, n);
      }
    }
  }

  lemma NoOther(s: Sys, lone: Name, n: Name)
    requires Alone(s, lone) && n != lone
    ensures !Is(s.st, n, Building)
  {
    assert n !in InState(s.st, Building);
  }

  lemma Another(s: Sys, lone: Name)
    requires Is(s.st, lone, Building) && !Alone(s, lone)
    ensures exists n :: n != lone && Is(s.st, n, Building)
  {
    var n :| n in InState(s.st, Building) && n != lone;
    assert Is(s.st, n, Building);
  }

  lemma NoCompanyYet(s: Sys, lone: Name)
    requires Alone(s, lone)
    ensures !Overlaps(s, lone)
  {
    forall n | n != lone ensures !Is(s.st, n, Building) {
      NoOther(s, lone, n);
    }
  }

  lemma EndedStays(cfg: Config, init: map<Name, State>, s: Sys, events: seq<Event>, n: Name)
    requires cfg.Valid() && Inv(cfg, init, s) && Allowed(cfg, s, events) && HasEnded(s.st, n)
    ensures HasEnded(Exec(cfg, s, events).st, n)
  {
    var x :| Terminal(x) && Is(s.st, n, x);
    TerminalStays(cfg, init, s, events, n, x);
  }

  lemma {:induction false} OnlyIfCanJoin(cfg: Config, init: map<Name, State>, s: Sys, lone: Name, events: seq<Event>)
    requires cfg.Valid() && Inv(cfg, init, s) && Is(s.st, lone, Building) && Alone(s, lone) && !cfg.fetchOnly
    requires Allowed(cfg, s, events) && Overlaps(Exec(cfg, s, events), lone)
    ensures cfg.buildJobs > 1 && exists n :: CanJoin(cfg, s.st, n)
    decreases |events|
  {
    if events == [] {
      NoCompanyYet(s, lone);
    } else {
      var t := Apply(cfg, s, events[0]);
      ApplyKeeps(cfg, init, s, events[0]);
      StepBack(cfg, init, s, events[0], lone);
      if HasEnded(t.st, lone) {
        EndedStays(cfg, init, t, events[1..], lone);
      } else if !(cfg.buildJobs > 1 && exists n :: CanJoin(cfg, s.st, n)) {
        OnlyIfCanJoin(cfg, init, t, lone, events[1..]);
      }
    }
  }

  // ---- and to all of them ----

  lemma FetchFinishedKeeps(cfg: Config, s: Sys, m: Name, lone: Name, n: Name)
    requires Shape(cfg, s) && m in s.fetchPool && m in cfg.providers && Alone(s, lone) && CanJoin(cfg, s.st, n)
    ensures var t := CommitFetch(cfg, s, m, cfg.providers[m].fetchOk); Alone(t, lone) && CanJoin(cfg, t.st, n)
  {
    assert s.fetchPool[m] > 0 && Is(s.st, m, Fetching);
    SameBuilding(s.st, m, if cfg.providers[m].fetchOk then SourceReady else FetchFailed);
    StillCanJoin(cfg, s.st, m, n);
  }

  lemma SameBuilding(st: map<Name, State>, m: Name, x: State)
    requires Is(st, m, Fetching) && x != Building
    ensures InState(st[m := x], Building) == InState(st, Building)
  {
  }

  lemma StillCanJoin(cfg: Config, st: map<Name, State>, m: Name, n: Name)
    requires Is(st, m, Fetching) && m in cfg.providers && CanJoin(cfg, st, n)
    ensures CanJoin(cfg, st[m := if cfg.providers[m].fetchOk then SourceReady else FetchFailed], n)
  {
    var next := st[m := if cfg.providers[m].fetchOk then SourceReady else FetchFailed];
    forall k | cfg.Needs(n, k) ensures Is(next, k, Done) {
      assert Is(st, k, Done);
    }
  }

  /** A waiting candidate is not lost while the other fetches are handed over and finish. */
  lemma {:induction false} QuietStep(cfg: Config, s: Sys, e: Event, lone: Name, n: Name)
    requires cfg.Valid() && Shape(cfg, s) && Enabled(cfg, s, e) && !e.TickNow? && !e.BuildFinished?
    requires Alone(s, lone) && CanJoin(cfg, s.st, n)
    ensures Alone(Apply(cfg, s, e), lone) && CanJoin(cfg, Apply(cfg, s, e).st, n)
  {
    match e {
      case HandOverFetch =>
      case HandOverBuild =>
      case FetchFinished(m) => FetchFinishedKeeps(cfg, s, m, lone, n);
    }
  }

  lemma OnlyOne<T>(s: set<T>, x: T)
    requires |s| == 1 && x in s
    ensures s == {x}
  {
    WithoutOne(s, x);
    assert s - {x} == {};
  }

  /** With no fetch in flight, a tick that launches no build launches a fetch, and the candidate goes on waiting. */
  lemma {:induction false} WaitingTick(cfg: Config, init: map<Name, State>, s: Sys, lone: Name, n: Name)
    requires cfg.Valid() && Inv(cfg, init, s) && Enabled(cfg, s, TickNow) && !cfg.fetchOnly
    requires Is(s.st, lone, Building) && Alone(s, lone) && CanJoin(cfg, s.st, n) && Is(s.st, n, Pending)
    requires InState(s.st, Fetching) == {} && Tick(cfg, s).toBuild == []
    ensures var t := Tick(cfg, s); Alone(t, lone) && CanJoin(cfg, t.st, n) && Measure(t) < Measure(s)
  {
    TickOpen(cfg, s, lone);
    BuildsStep(cfg, s);
    TickDone(cfg, s, lone, n);
    TickSteps(cfg, s, lone, n);
    OnlyOne(InState(Tick(cfg, s).st, Building), lone);
    SomeFetch(cfg, s, n);
    TickMovesOn(cfg, s);
  }

  lemma HasNone(st: map<Name, State>)
    ensures |InState(st, Fetching)| == 0 ==> forall n :: !Is(st, n, Fetching)
  {
    forall n | |InState(st, Fetching)| == 0 ensures !Is(st, n, Fetching) {
      assert n !in InState(st, Fetching);
    }
  }

  lemma SomeFetch(cfg: Config, s: Sys, n: Name)
    requires cfg.Valid() && n in cfg.providers && Is(s.st, n, Pending) && InState(s.st, Fetching) == {}
    ensures Tick(cfg, s).toFetch != []
  {
    var p := Pass(s.(toFetch := [], toBuild := []), 0);
    FetchPassEffect(cfg, cfg.deps, Free(cfg.fetchJobs, 0), p);
    FetchPassMoves(cfg, cfg.deps, Free(cfg.fetchJobs, 0), p);
    BuildsKeepFetchMarks(cfg, s);
    HasNone(TickFetches(cfg, s).sys.st);
  }

  lemma {:induction false} TickJoins(cfg: Config, init: map<Name, State>, s: Sys, lone: Name)
    requires cfg.Valid() && Inv(cfg, init, s) && Enabled(cfg, s, TickNow) && !cfg.fetchOnly
    requires Is(s.st, lone, Building) && Tick(cfg, s).toBuild != []
    ensures Overlaps(Tick(cfg, s), lone)
  {
    var t := Tick(cfg, s);
    var m := t.toBuild[0];
    TickOpen(cfg, s, lone);
    TickKeeps(cfg, init, s);
    LaunchedWasEligible(cfg, s, m);
    assert m in t.toBuild && Is(t.st, m, Building);
  }

  lemma {:induction false} JoinsInTime(cfg: Config, init: map<Name, State>, start: Sys, s: Sys, lone: Name, n: Name)
      returns (t: Sys)
    requires cfg.Valid() && Inv(cfg, init, s) && !cfg.fetchOnly && cfg.buildJobs > 1 && Reached(cfg, start, s)
    requires Is(s.st, lone, Building) && Alone(s, lone) && CanJoin(cfg, s.st, n) && !s.returned
    ensures Reached(cfg, start, t) && Overlaps(t, lone)
    decreases Measure(s)
  {
    if s.toFetch == [] && s.toBuild == [] && (Is(s.st, n, SourceReady) || InState(s.st, Fetching) == {}) {
      ReachTick(cfg, start, s, Tick(cfg, s));
      t := Tick(cfg, s);
      TickOpen(cfg, s, lone);
      BuildsStep(cfg, s);
      if Is(s.st, n, SourceReady) {
        SomeLaunch(cfg, s, n);
      }
      if t.toBuild != [] {
        TickJoins(cfg, init, s, lone);
      } else {
        assert Is(s.st, n, Fetching) ==> n in InState(s.st, Fetching);
        WaitingTick(cfg, init, s, lone, n);
        TickKeeps(cfg, init, s);
        t := JoinsInTime(cfg, init, start, t, lone, n);
      }
    } else {
      var e := QuietEvent(cfg, init, s);
      ReachNext(cfg, start, s, e);
      QuietStep(cfg, s, e, lone, n);
      LoneStep(cfg, s, e, lone);
      ApplyMovesOn(cfg, s, e);
      ApplyKeeps(cfg, init, s, e);
      t := JoinsInTime(cfg, init, start, Apply(cfg, s, e), lone, n);
    }
  }

  lemma OnlyTickReturns(cfg: Config, s: Sys, e: Event)
    requires cfg.Valid() && Enabled(cfg, s, e) && !e.TickNow? && !s.returned
    ensures !Apply(cfg, s, e).returned
  {
  }

  lemma {:induction false} QuietEvent(cfg: Config, init: map<Name, State>, s: Sys) returns (e: Event)
    requires cfg.Valid() && Inv(cfg, init, s) && !s.returned
    requires s.toFetch != [] || s.toBuild != [] || InState(s.st, Fetching) != {}
    ensures Enabled(cfg, s, e) && !e.TickNow? && !e.BuildFinished? && !Apply(cfg, s, e).returned
  {
    if s.toFetch != [] {
      e := HandOverFetch;
    } else if s.toBuild != [] {
      e := HandOverBuild;
    } else {
      var m :| m in InState(s.st, Fetching);
      assert s.fetchPool[m] == 1;
      e := FetchFinished(m);
    }
    OnlyTickReturns(cfg, s, e);
  }

  /**
   At any moment of any run at which one build is running: the rest of the run may bring another build beside it exactly
   when there is a second slot and some ordinary dep has all its prereqs Done and is fetched, or can be.
   */
  lemma {:induction false} CompanyIffCanJoin(cfg: Config, init: map<Name, State>, s: Sys, lone: Name)
    requires cfg.Valid() && Inv(cfg, init, s) && Alone(s, lone)
    ensures (exists t :: Reached(cfg, s, t) && Overlaps(t, lone))
       <==> cfg.buildJobs > 1 && exists n :: CanJoin(cfg, s.st, n)
  {
    assert lone in InState(s.st, Building);
    UnderWay(cfg, init, s, lone);
    assert !s.returned;
    if t :| Reached(cfg, s, t) && Overlaps(t, lone) {
      var events :| Allowed(cfg, s, events) && Exec(cfg, s, events) == t;
      OnlyIfCanJoin(cfg, init, s, lone, events);
    }
    if n :| cfg.buildJobs > 1 && CanJoin(cfg, s.st, n) {
      ReachStart(cfg, s);
      var t := JoinsInTime(cfg, init, s, s, lone, n);
    }
  }
}
