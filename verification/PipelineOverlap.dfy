/** Serial deps and the others: when two builds overlap, and that a serial build can overlap an ordinary one. */
module PipelineOverlap {
  import opened Basics
  import opened StableSort
  import opened PipelineModel
  import opened PipelineInvariant
  import opened PipelineSafety
  import opened PipelineBlame

  /** A build waits for everything on its paths, so nothing on them is still being built. */
  lemma {:induction false} PathIsDone(cfg: Config, init: map<Name, State>, s: Sys, path: seq<Name>, i: nat)
    requires Verdict(cfg, init, s) && WaitPath(cfg, init, path) && Is(s.st, path[0], Building) && 0 < i < |path|
    ensures Is(s.st, path[i], Done)
    decreases i
  {
    if i > 1 {
      PathIsDone(cfg, init, s, path, i - 1);
    }
    PrereqIsDone(cfg, init, s, path[i - 1], path[i]);
  }

  lemma BuildsDoNotWait(cfg: Config, init: map<Name, State>, s: Sys, a: Name, b: Name)
    requires Verdict(cfg, init, s) && Is(s.st, a, Building) && Is(s.st, b, Building) && a != b
    ensures !WaitsOn(cfg, init, a, b)
  {
    if WaitsOn(cfg, init, a, b) {
      var path :| WaitPath(cfg, init, path) && path[0] == a && path[|path| - 1] == b;
      PathIsDone(cfg, init, s, path, |path| - 1);
    }
  }

  /**
   Wherever, in any run, a serial build overlaps another one: there is a second slot, the other dep is not serial, and
   neither of the two waits for the other.
   */
  lemma OverlapMeans(cfg: Config, init: map<Name, State>, events: seq<Event>, serial: Name, other: Name)
    requires cfg.Valid() && Initial(cfg, init) && Allowed(cfg, Start(init), events)
    requires var st := Exec(cfg, Start(init), events).st;
      Is(st, serial, Building) && Is(st, other, Building) && serial != other
    requires serial in cfg.providers && cfg.providers[serial].serialBuild
    ensures cfg.buildJobs > 1 && other in cfg.providers && !cfg.providers[other].serialBuild
    ensures !WaitsOn(cfg, init, serial, other) && !WaitsOn(cfg, init, other, serial)
  {
    var s := Exec(cfg, Start(init), events);
    StartInv(cfg, init);
    ExecKeeps(cfg, init, Start(init), events);
    TwoInState(s.st, serial, other);
    BothSerial(cfg, s.st, serial, other);
    BuildsDoNotWait(cfg, init, s, serial, other);
    BuildsDoNotWait(cfg, init, s, other, serial);
  }

  lemma TwoInState(st: map<Name, State>, a: Name, b: Name)
    requires Is(st, a, Building) && Is(st, b, Building) && a != b
    ensures |InState(st, Building)| >= 2
  {
    NoDupBound([a, b], InState(st, Building));
  }

  lemma BothSerial(cfg: Config, st: map<Name, State>, a: Name, b: Name)
    requires OneSerial(cfg, st) && Is(st, a, Building) && Is(st, b, Building) && a != b
    requires st.Keys == cfg.providers.Keys && cfg.providers[a].serialBuild
    ensures !cfg.providers[b].serialBuild
  {
    if cfg.providers[b].serialBuild {
      assert SerialIn(cfg, st, a, Building) && SerialIn(cfg, st, b, Building);
    }
  }

  // ---- a run with an overlap ----

  /** Two deps without prereqs that fetch well; the first is marked serial_build. Two slots in each pool. */
  ghost predicate SerialAndPlain(cfg: Config) {
    && cfg.Valid() && cfg.deps == [0, 1] && cfg.fetchOnlySet == {} && !cfg.fetchOnly
    && cfg.fetchJobs == 2 && cfg.buildJobs == 2
    && IsFree(cfg, 0) && cfg.providers[0].serialBuild && IsFree(cfg, 1) && !cfg.providers[1].serialBuild
    && cfg.providers[0].priority == cfg.providers[1].priority
  }

  ghost predicate IsFree(cfg: Config, n: Name) {
    n in cfg.providers && cfg.providers[n].required == [] && !cfg.providers[n].serialFetch && cfg.providers[n].fetchOk
  }

  lemma TwoInOrder(cfg: Config)
    requires SerialAndPlain(cfg)
    ensures ByPriority(cfg) == [0, 1]
  {
    SortTwo(PriorityKey(cfg));
  }

  lemma SortTwo(key: Name -> Key)
    requires !Less(key(1), key(0))
    ensures SortBy<Name>([0, 1], key) == [0, 1]
  {
    var two: seq<Name> := [0, 1];
    var one: seq<Name> := [1];
    assert two[1..] == one && one[1..] == [];
    assert SortBy<Name>(one, key) == one;
    assert Insert<Name>(0, one, key) == two;
  }

  ghost predicate Both(s: Sys, x: State, y: State) {
    s.st == map[0 := x, 1 := y] && s.toFetch == [] && s.toBuild == [] && !s.returned
  }

  lemma UnderWayIsNotTerminal(cfg: Config, st: map<Name, State>, n: Name)
    requires Is(st, n, Fetching) || Is(st, n, Building)
    ensures !AllTerminal(cfg, st)
  {
    assert !IsTerminal(cfg, n, st[n]);
  }

  /** A tick after which something is in flight leaves the states as its dispatch left them. */
  lemma TickGoesOn(cfg: Config, s: Sys, n: Name)
    requires cfg.Valid() && TickFetches(cfg, s).inFlight + TickBuilds(cfg, s).inFlight > 0
    requires var st := TickBuilds(cfg, s).sys.st; Is(st, n, Fetching) || Is(st, n, Building)
    ensures Tick(cfg, s) == TickBuilds(cfg, s).sys
  {
    UnderWayIsNotTerminal(cfg, TickBuilds(cfg, s).sys.st, n);
  }

  lemma Idle(s: Sys, x: State)
    requires Both(s, x, x) && x != Fetching && x != Building
    ensures InState(s.st, Fetching) == {} && InState(s.st, Building) == {}
  {
  }

  lemma {:induction false} TwoFetches(cfg: Config, s: Sys)
    requires SerialAndPlain(cfg) && Both(s, Pending, Pending)
    ensures FetchPass(cfg, [0, 1], 2, Pass(s, 0)) == Pass(MarkFetch(MarkFetch(s, 0), 1), 2)
  {
    var q := Pass(MarkFetch(s, 0), 1);
    assert [0, 1][1..] == [1];
    assert FetchPass(cfg, [1], 2, q) == Pass(MarkFetch(q.sys, 1), 2);
  }

  lemma SameMarks(s: Sys)
    requires s.toFetch == [] && s.toBuild == []
    ensures s.(toFetch := [], toBuild := []) == s
  {
  }

  lemma {:induction false} FetchesBoth(cfg: Config, s: Sys)
    requires SerialAndPlain(cfg) && Both(s, Pending, Pending)
    ensures TickFetches(cfg, s) == Pass(MarkFetch(MarkFetch(s, 0), 1), 2)
  {
    Idle(s, Pending);
    SameMarks(s);
    TwoFetches(cfg, s);
  }

  lemma {:induction false} NoneBuilt(cfg: Config, s: Sys)
    requires SerialAndPlain(cfg) && ByPriority(cfg) == [0, 1] && Both(s, Pending, Pending)
    ensures TickBuilds(cfg, s).sys == MarkFetch(MarkFetch(s, 0), 1)
  {
    var r := MarkFetch(MarkFetch(s, 0), 1);
    Idle(s, Pending);
    FetchesBoth(cfg, s);
    MarkedBoth(s);
    NothingReady(cfg, [0, 1], 2, Pass(r, 0));
  }

  /** With both pending, the tick marks both for fetching and builds nothing. */
  lemma {:induction false} FetchTick(cfg: Config, s: Sys)
    requires SerialAndPlain(cfg) && ByPriority(cfg) == [0, 1] && Both(s, Pending, Pending)
    ensures Tick(cfg, s) == MarkFetch(MarkFetch(s, 0), 1)
  {
    FetchesBoth(cfg, s);
    NoneBuilt(cfg, s);
    TickGoesOn(cfg, s, 0);
  }

  lemma {:induction false} NothingReady(cfg: Config, todo: seq<Name>, avail: nat, p: Pass)
    requires (forall n :: n in todo ==> n in cfg.providers) && forall n :: n in todo ==> !Is(p.sys.st, n, SourceReady)
    ensures BuildPass(cfg, todo, avail, p) == p
    decreases |todo|
  {
    if todo != [] && |p.sys.toBuild| < avail {
      NothingReady(cfg, todo[1..], avail, p);
    }
  }

  lemma {:induction false} NothingPending(cfg: Config, s: Sys)
    requires SerialAndPlain(cfg) && s.toFetch == [] && s.toBuild == []
    requires !Is(s.st, 0, Pending) && !Is(s.st, 1, Pending) && InState(s.st, Fetching) == {}
    ensures TickFetches(cfg, s) == Pass(s, 0)
  {
    var p := Pass(s, 0);
    assert s.(toFetch := [], toBuild := []) == s;
    assert [0, 1][1..] == [1] && [1][1..] == [];
    assert FetchPass(cfg, [1], 2, p) == p;
  }

  lemma {:induction false} OneBuild(cfg: Config, s: Sys)
    requires SerialAndPlain(cfg) && Both(s, SourceReady, SourceReady)
    ensures BuildPass(cfg, [0, 1], 2, Pass(s, 0)) == Pass(MarkBuild(s, 0), 1)
  {
    assert BuildChoice(cfg, Pass(s, 0), 0) == Launch;
  }

  /** With both ready, the tick starts the serial build alone. */
  lemma {:induction false} FirstBuildTick(cfg: Config, s: Sys)
    requires SerialAndPlain(cfg) && ByPriority(cfg) == [0, 1] && Both(s, SourceReady, SourceReady)
    ensures Tick(cfg, s) == MarkBuild(s, 0)
  {
    Idle(s, SourceReady);
    NothingPending(cfg, s);
    OneBuild(cfg, s);
    TickGoesOn(cfg, s, 0);
  }

  lemma {:induction false} JoinBuild(cfg: Config, s: Sys)
    requires SerialAndPlain(cfg) && Both(s, Building, SourceReady)
    ensures BuildPass(cfg, [0, 1], 1, Pass(s, 1)) == Pass(MarkBuild(s, 1), 2)
  {
    var p, q := Pass(s, 1), Pass(MarkBuild(s, 1), 2);
    assert BuildChoice(cfg, p, 0) == Skip && BuildChoice(cfg, p, 1) == Launch;
    assert [0, 1][1..] == [1];
    assert BuildPass(cfg, [1], 1, p) == BuildPass(cfg, [1][1..], 1, q) == q;
  }

  lemma FirstIsBuilding(s: Sys)
    requires Both(s, Building, SourceReady)
    ensures InState(s.st, Fetching) == {} && InState(s.st, Building) == {0}
    ensures Is(MarkBuild(s, 1).st, 0, Building) && Is(MarkBuild(s, 1).st, 1, Building)
  {
  }

  /** The next tick lets the other dep join it. */
  lemma {:induction false} SecondBuildTick(cfg: Config, s: Sys)
    requires SerialAndPlain(cfg) && ByPriority(cfg) == [0, 1] && Both(s, Building, SourceReady)
    ensures Is(Tick(cfg, s).st, 0, Building) && Is(Tick(cfg, s).st, 1, Building)
  {
    FirstIsBuilding(s);
    NothingPending(cfg, s);
    JoinBuild(cfg, s);
    TickGoesOn(cfg, s, 0);
  }

  lemma {:induction false} RunThen(cfg: Config, s: Sys, events: seq<Event>, e: Event)
    requires cfg.Valid() && Allowed(cfg, s, events) && Enabled(cfg, Exec(cfg, s, events), e)
    ensures Allowed(cfg, s, events + [e])
    ensures Exec(cfg, s, events + [e]) == Apply(cfg, Exec(cfg, s, events), e)
    decreases |events|
  {
    var longer := events + [e];
    if events == [] {
      assert longer[1..] == [];
    } else {
      assert longer[0] == events[0] && longer[1..] == events[1..] + [e];
      RunThen(cfg, Apply(cfg, s, events[0]), events[1..], e);
    }
  }

  /** Some run from start leads to s. */
  ghost predicate Reached(cfg: Config, start: Sys, s: Sys)
    requires cfg.Valid()
  {
    exists events :: Allowed(cfg, start, events) && Exec(cfg, start, events) == s
  }

  lemma {:induction false} ReachStart(cfg: Config, start: Sys)
    requires cfg.Valid()
    ensures Reached(cfg, start, start)
  {
    var none: seq<Event> := [];
    assert Allowed(cfg, start, none) && Exec(cfg, start, none) == start;
  }

  lemma {:induction false} ReachNext(cfg: Config, start: Sys, s: Sys, e: Event)
    requires cfg.Valid() && Reached(cfg, start, s) && Enabled(cfg, s, e)
    ensures Reached(cfg, start, Apply(cfg, s, e))
  {
    var events :| Allowed(cfg, start, events) && Exec(cfg, start, events) == s;
    RunThen(cfg, start, events, e);
  }

  lemma ReachTick(cfg: Config, start: Sys, s: Sys, t: Sys)
    requires cfg.Valid() && Reached(cfg, start, s) && Enabled(cfg, s, TickNow) && t == Tick(cfg, s)
    ensures Reached(cfg, start, t)
  {
    ReachNext(cfg, start, s, TickNow);
  }

  lemma ReachSubmitFetch(cfg: Config, start: Sys, s: Sys)
    requires cfg.Valid() && Reached(cfg, start, s) && !s.returned && s.toFetch != []
    ensures Reached(cfg, start, SubmitFetch(s))
  {
    ReachNext(cfg, start, s, HandOverFetch);
  }

  lemma ReachSubmitBuild(cfg: Config, start: Sys, s: Sys)
    requires cfg.Valid() && Reached(cfg, start, s) && !s.returned && s.toFetch == [] && s.toBuild != []
    ensures Reached(cfg, start, SubmitBuild(s))
  {
    ReachNext(cfg, start, s, HandOverBuild);
  }

  lemma ReachFetched(cfg: Config, start: Sys, s: Sys, n: Name)
    requires cfg.Valid() && Reached(cfg, start, s) && n in s.fetchPool && n in cfg.providers && cfg.providers[n].fetchOk
    ensures Reached(cfg, start, CommitFetch(cfg, s, n, true))
  {
    ReachNext(cfg, start, s, FetchFinished(n));
  }

  lemma TwoFetched(cfg: Config, s: Sys)
    requires cfg.fetchOnlySet == {} && s.st == map[0 := Fetching, 1 := Fetching] && 0 in s.fetchPool && 1 in s.fetchPool
    ensures var t := CommitFetch(cfg, s, 0, true); var u := CommitFetch(cfg, t, 1, true);
      && 1 in t.fetchPool && u == t.(st := u.st, fetchPool := u.fetchPool)
      && u.st == map[0 := SourceReady, 1 := SourceReady]
      && t == s.(st := t.st, fetchPool := t.fetchPool)
  {
  }

  lemma MarkedBoth(s: Sys)
    requires Both(s, Pending, Pending)
    ensures var t := MarkFetch(MarkFetch(s, 0), 1);
      t.st == map[0 := Fetching, 1 := Fetching] && t.toFetch == [0, 1] && t.toBuild == [] && !t.returned
  {
  }

  lemma {:induction false} BothMarked(cfg: Config, start: Sys) returns (t: Sys)
    requires SerialAndPlain(cfg) && ByPriority(cfg) == [0, 1] && Both(start, Pending, Pending)
    ensures Reached(cfg, start, t) && !t.returned
    ensures t.st == map[0 := Fetching, 1 := Fetching] && t.toFetch == [0, 1] && t.toBuild == []
  {
    FetchTick(cfg, start);
    MarkedBoth(start);
    ReachStart(cfg, start);
    t := MarkFetch(MarkFetch(start, 0), 1);
    ReachTick(cfg, start, start, t);
  }

  /** Handing both fetches over and committing both. */
  lemma {:induction false} BothFetched(cfg: Config, start: Sys, s: Sys) returns (t: Sys)
    requires SerialAndPlain(cfg) && Reached(cfg, start, s)
    requires s.st == map[0 := Fetching, 1 := Fetching] && !s.returned && s.toFetch == [0, 1] && s.toBuild == []
    ensures Reached(cfg, start, t) && Both(t, SourceReady, SourceReady)
  {
    ReachSubmitFetch(cfg, start, s);
    t := SubmitFetch(s);
    ReachSubmitFetch(cfg, start, t);
    t := SubmitFetch(t);
    TwoFetched(cfg, t);
    ReachFetched(cfg, start, t, 0);
    t := CommitFetch(cfg, t, 0, true);
    ReachFetched(cfg, start, t, 1);
    t := CommitFetch(cfg, t, 1, true);
  }

  lemma Submitted(s: Sys)
    requires Both(s, SourceReady, SourceReady)
    ensures var t := MarkBuild(s, 0);
      !t.returned && t.toFetch == [] && t.toBuild == [0] && Both(SubmitBuild(t), Building, SourceReady)
  {
  }

  lemma {:induction false} BothBuilding(cfg: Config, start: Sys, s: Sys) returns (t: Sys)
    requires SerialAndPlain(cfg) && ByPriority(cfg) == [0, 1]
    requires Reached(cfg, start, s) && Both(s, SourceReady, SourceReady)
    ensures Reached(cfg, start, t) && Is(t.st, 0, Building) && Is(t.st, 1, Building)
  {
    FirstBuildTick(cfg, s);
    ReachTick(cfg, start, s, MarkBuild(s, 0));
    Submitted(s);
    t := SubmitBuild(MarkBuild(s, 0));
    ReachSubmitBuild(cfg, start, MarkBuild(s, 0));
    SecondBuildTick(cfg, t);
    ReachTick(cfg, start, t, Tick(cfg, t));
    t := Tick(cfg, t);
  }

  /**
   So the promise that a serial dep runs alone is not kept.  From nothing fetched, a run leads to a state in which the
   serial dep 0 and the ordinary dep 1 are both being built.
   */
  lemma {:induction false} SerialBuildIsNotAlone(cfg: Config) returns (s: Sys)
    requires SerialAndPlain(cfg)
    ensures Reached(cfg, Start(map[0 := Pending, 1 := Pending]), s) && Is(s.st, 0, Building) && Is(s.st, 1, Building)
  {
    var start := Start(map[0 := Pending, 1 := Pending]);
    TwoInOrder(cfg);
    s := BothMarked(cfg, start);
    s := BothFetched(cfg, start, s);
    s := BothBuilding(cfg, start, s);
  }
}
