/** What every event of the scheduler keeps. */
module PipelineInvariant {
  import opened Basics
  import opened PipelineModel
  import opened PipelineOutcome
  import opened StableSort

  /** Each dep in state x is in exactly one place: marked once, or once in the pool. */
  ghost predicate Placed(st: map<Name, State>, marked: seq<Name>, pool: multiset<Name>, x: State) {
    && NoDup(marked)
    && (forall n :: n in marked ==> Is(st, n, x))
    && (forall n :: pool[n] == if Is(st, n, x) && n !in marked then 1 else 0)
  }

  ghost predicate Shape(cfg: Config, s: Sys) {
    && s.st.Keys == cfg.providers.Keys
    && Placed(s.st, s.toFetch, s.fetchPool, Fetching)
    && Placed(s.st, s.toBuild, s.buildPool, Building)
  }

  /** Why a dep may be in its current state. */
  ghost predicate Explained(cfg: Config, init: map<Name, State>, st: map<Name, State>, n: Name)
    requires n in st && n in init && n in cfg.providers
  {
    if Terminal(init[n]) then st[n] == init[n]
    else match st[n]
      case Pending => init[n] == Pending
      case Fetching => init[n] == Pending
      case SourceReady => FetchGood(cfg, init, n)
      case FetchFailed => !FetchGood(cfg, init, n)
      case Building =>
        !cfg.fetchOnly && FetchGood(cfg, init, n) && n !in cfg.fetchOnlySet && PrereqsDone(cfg, st, n)
      case Done =>
        !cfg.fetchOnly && CanWork(cfg, init, n) && PrereqsDone(cfg, st, n)
      case BuildFailed =>
        !cfg.fetchOnly && FetchGood(cfg, init, n) && n !in cfg.fetchOnlySet && !Buildable(cfg, init, n)
  }

  ghost predicate Verdict(cfg: Config, init: map<Name, State>, s: Sys) {
    && init.Keys == s.st.Keys == cfg.providers.Keys
    && (forall n :: n in s.st ==> Explained(cfg, init, s.st, n))
    && (forall n :: Is(s.st, n, Done) ==> Buildable(cfg, init, n))
    && (s.returned ==> AllTerminal(cfg, s.st))
  }

  ghost predicate SerialIn(cfg: Config, st: map<Name, State>, n: Name, x: State) {
    && Is(st, n, x) && n in cfg.providers
    && ((x == Fetching && cfg.providers[n].serialFetch) || (x == Building && cfg.providers[n].serialBuild))
  }

  ghost predicate OneSerial(cfg: Config, st: map<Name, State>) {
    && (forall m, n :: SerialIn(cfg, st, m, Fetching) && SerialIn(cfg, st, n, Fetching) ==> m == n)
    && (forall m, n :: SerialIn(cfg, st, m, Building) && SerialIn(cfg, st, n, Building) ==> m == n)
  }

  ghost predicate Slots(cfg: Config, s: Sys) {
    && |InState(s.st, Fetching)| <= cfg.fetchJobs
    && |InState(s.st, Building)| <= cfg.buildJobs
    && OneSerial(cfg, s.st)
  }

  /** A completion that will not change any more. */
  ghost predicate Settled(cfg: Config, st: map<Name, State>, e: Entry) {
    Is(st, e.name, e.state) && (Terminal(e.state) || (e.state == SourceReady && e.name in cfg.fetchOnlySet))
  }

  ghost function LastRecent(history: seq<Entry>): seq<Entry> {
    if |history| > RECENT_MAX then history[|history| - RECENT_MAX..] else history
  }

  /** Work is handed over at most once. */
  ghost predicate WorkOnce(cfg: Config, init: map<Name, State>, s: Sys) {
    && NoDup(s.fetchLog) && NoDup(s.buildLog)
    && (forall n :: n in s.fetchLog ==> n !in s.toFetch && n in s.st && s.st[n] != Pending && Is(init, n, Pending))
    && (forall n :: n in s.buildLog ==>
          n !in s.toBuild && n in s.st && (s.st[n] == Building || s.st[n] == Done || s.st[n] == BuildFailed)
          && n in init && !Terminal(init[n]))
  }

  /** The work handed over for the dep has ended, and with it the dep's way. */
  ghost predicate Ended(cfg: Config, s: Sys, n: Name) {
    && n in s.st
    && ((n in s.buildLog && s.st[n] != Building)
        || (n in s.fetchLog && (s.st[n] == FetchFailed || (s.st[n] == SourceReady && n in cfg.fetchOnlySet))))
  }

  /**
   Completions are reported at most once; every finished build is, and every fetch that failed or was all there was
   to do.
   */
  ghost predicate ReportOnce(cfg: Config, s: Sys) {
    && (forall i, j :: 0 <= i < j < |s.history| ==> s.history[i].name != s.history[j].name)
    && (forall e :: e in s.history ==> Settled(cfg, s.st, e))
    && (forall n :: Ended(cfg, s, n) ==> Entry(n, s.st[n]) in s.history)
    && s.recent == LastRecent(s.history)
  }

  ghost predicate Inv(cfg: Config, init: map<Name, State>, s: Sys) {
    Shape(cfg, s) && Verdict(cfg, init, s) && Slots(cfg, s)
    && WorkOnce(cfg, init, s) && ReportOnce(cfg, s)
  }

  lemma Elsewhere(st: map<Name, State>, n: Name, x: State, y: State)
    ensures InState(st[n := x], y) - {n} == InState(st, y) - {n}
    ensures n in InState(st[n := x], y) <==> x == y
  {
  }

  lemma WithoutOne<T>(s: set<T>, x: T)
    ensures |s| == |s - {x}| + if x in s then 1 else 0
  {
    if x in s {
      assert s == (s - {x}) + {x};
    } else {
      assert s == s - {x};
    }
  }

  lemma Recount(st: map<Name, State>, n: Name, x: State, y: State)
    requires n in st
    ensures |InState(st[n := x], y)|
         == |InState(st, y)| - (if st[n] == y then 1 else 0) + (if x == y then 1 else 0)
  {
    Elsewhere(st, n, x, y);
    WithoutOne(InState(st[n := x], y), n);
    WithoutOne(InState(st, y), n);
  }

  // ---- one update at a time ----

  lemma PlacedFrame(st: map<Name, State>, marked: seq<Name>, pool: multiset<Name>, x: State, n: Name, y: State)
    requires Placed(st, marked, pool, x) && !Is(st, n, x) && y != x
    ensures Placed(st[n := y], marked, pool, x)
  {
    forall m ensures Is(st[n := y], m, x) <==> Is(st, m, x) {}
  }

  lemma PlacedEnter(st: map<Name, State>, marked: seq<Name>, pool: multiset<Name>, x: State, n: Name)
    requires Placed(st, marked, pool, x) && !Is(st, n, x)
    ensures Placed(st[n := x], marked + [n], pool, x)
  {
    forall m ensures Is(st[n := x], m, x) <==> Is(st, m, x) || m == n {}
  }

  lemma PlacedLeave(st: map<Name, State>, marked: seq<Name>, pool: multiset<Name>, x: State, n: Name, y: State)
    requires Placed(st, marked, pool, x) && n in pool && y != x
    ensures Is(st, n, x) && n !in marked
    ensures Placed(st[n := y], marked, pool - multiset{n}, x)
  {
    assert pool[n] == 1;
    forall m ensures Is(st[n := y], m, x) <==> Is(st, m, x) && m != n {}
  }

  lemma PlacedSubmit(st: map<Name, State>, marked: seq<Name>, pool: multiset<Name>, x: State)
    requires Placed(st, marked, pool, x) && marked != []
    ensures Placed(st, marked[1..], pool + multiset{marked[0]}, x)
  {
    assert forall m :: m in marked <==> m == marked[0] || m in marked[1..];
    assert marked[0] !in marked[1..];
  }

  lemma StartInv(cfg: Config, init: map<Name, State>)
    requires cfg.Valid() && Initial(cfg, init)
    ensures Inv(cfg, init, Start(init))
  {
    forall n | Is(init, n, Done) ensures Buildable(cfg, init, n) {
      BuildableIff(cfg, init, n);
    }
    assert InState(init, Fetching) == {} == InState(init, Building);
    forall n | n in init ensures Explained(cfg, init, init, n) {}
  }

  lemma VerdictMove(cfg: Config, init: map<Name, State>, s: Sys, t: Sys, n: Name, x: State)
    requires Verdict(cfg, init, s) && n in s.st && s.st[n] != Done && !Terminal(init[n])
    requires t.st == s.st[n := x] && !t.returned
    requires Explained(cfg, init, t.st, n)
    requires x == Done ==> Buildable(cfg, init, n)
    ensures Verdict(cfg, init, t)
  {
    forall m | m in t.st ensures Explained(cfg, init, t.st, m) {
      assert Explained(cfg, init, s.st, m);
      assert PrereqsDone(cfg, s.st, m) ==> PrereqsDone(cfg, t.st, m);
    }
  }

  /** Starting work takes a free slot; serial work takes an idle pool. */
  ghost predicate MayEnter(cfg: Config, st: map<Name, State>, n: Name, x: State)
    requires n in cfg.providers
  {
    && (x == Fetching ==>
          |InState(st, Fetching)| < cfg.fetchJobs && (cfg.providers[n].serialFetch ==> InState(st, Fetching) == {}))
    && (x == Building ==>
          |InState(st, Building)| < cfg.buildJobs && (cfg.providers[n].serialBuild ==> InState(st, Building) == {}))
  }

  lemma SlotsMove(cfg: Config, s: Sys, t: Sys, n: Name, x: State)
    requires Slots(cfg, s) && n in s.st && n in cfg.providers && t.st == s.st[n := x]
    requires MayEnter(cfg, s.st, n, x)
    ensures Slots(cfg, t)
  {
    Recount(s.st, n, x, Fetching);
    Recount(s.st, n, x, Building);
    forall a, b, y | (y == Fetching || y == Building) && SerialIn(cfg, t.st, a, y) && SerialIn(cfg, t.st, b, y)
      ensures a == b
    {
      assert a == n || (SerialIn(cfg, s.st, a, y) && a in InState(s.st, y));
      assert b == n || (SerialIn(cfg, s.st, b, y) && b in InState(s.st, y));
    }
  }

  lemma ReportKeeps(cfg: Config, s: Sys, n: Name, x: State)
    requires ReportOnce(cfg, s) && n in s.st && !IsTerminal(cfg, n, s.st[n])
    requires Settled(cfg, s.st[n := x], Entry(n, x))
    ensures ReportOnce(cfg, Report(s, n, x))
  {
    var t := Report(s, n, x);
    forall e | e in t.history ensures Settled(cfg, t.st, e) {
      assert e in s.history ==> Settled(cfg, s.st, e);
    }
    forall i, j | 0 <= i < j < |t.history| ensures t.history[i].name != t.history[j].name {
      assert t.history[i] in s.history && Settled(cfg, s.st, t.history[i]);
    }
  }

  lemma WorkMove(cfg: Config, init: map<Name, State>, s: Sys, t: Sys, n: Name, x: State)
    requires WorkOnce(cfg, init, s) && t.st == s.st[n := x] && x != Pending
    requires t.fetchLog == s.fetchLog && t.buildLog == s.buildLog && t.toFetch == s.toFetch && t.toBuild == s.toBuild
    requires n in s.buildLog ==> Terminal(x) && x != FetchFailed
    ensures WorkOnce(cfg, init, t)
  {
  }

  lemma MarkFetchShape(cfg: Config, s: Sys, n: Name)
    requires Shape(cfg, s) && Is(s.st, n, Pending)
    ensures Shape(cfg, MarkFetch(s, n))
  {
    PlacedEnter(s.st, s.toFetch, s.fetchPool, Fetching, n);
    PlacedFrame(s.st, s.toBuild, s.buildPool, Building, n, Fetching);
  }

  lemma MarkFetchVerdict(cfg: Config, init: map<Name, State>, s: Sys, n: Name)
    requires Verdict(cfg, init, s) && !s.returned && Is(s.st, n, Pending)
    ensures Verdict(cfg, init, MarkFetch(s, n)) && Is(init, n, Pending)
  {
    assert Explained(cfg, init, s.st, n);
    VerdictMove(cfg, init, s, MarkFetch(s, n), n, Fetching);
  }

  lemma MarkFetchWork(cfg: Config, init: map<Name, State>, s: Sys, n: Name)
    requires WorkOnce(cfg, init, s) && Is(s.st, n, Pending)
    ensures WorkOnce(cfg, init, MarkFetch(s, n))
  {
  }

  lemma MarkFetchReports(cfg: Config, init: map<Name, State>, s: Sys, n: Name)
    requires ReportOnce(cfg, s) && WorkOnce(cfg, init, s) && Is(s.st, n, Pending)
    ensures ReportOnce(cfg, MarkFetch(s, n))
  {
    QuietKeeps(cfg, s, MarkFetch(s, n), n, Fetching);
  }

  lemma MarkFetchKeeps(cfg: Config, init: map<Name, State>, s: Sys, n: Name)
    requires Inv(cfg, init, s) && !s.returned && Is(s.st, n, Pending)
    requires MayEnter(cfg, s.st, n, Fetching)
    ensures Inv(cfg, init, MarkFetch(s, n))
  {
    MarkFetchShape(cfg, s, n);
    MarkFetchVerdict(cfg, init, s, n);
    SlotsMove(cfg, s, MarkFetch(s, n), n, Fetching);
    MarkFetchWork(cfg, init, s, n);
    MarkFetchReports(cfg, init, s, n);
  }

  lemma MarkBuildShape(cfg: Config, s: Sys, n: Name)
    requires Shape(cfg, s) && Is(s.st, n, SourceReady)
    ensures Shape(cfg, MarkBuild(s, n))
  {
    PlacedEnter(s.st, s.toBuild, s.buildPool, Building, n);
    PlacedFrame(s.st, s.toFetch, s.fetchPool, Fetching, n, Building);
  }

  lemma MarkBuildVerdict(cfg: Config, init: map<Name, State>, s: Sys, n: Name)
    requires Verdict(cfg, init, s) && !s.returned && Is(s.st, n, SourceReady)
    requires !cfg.fetchOnly && n !in cfg.fetchOnlySet && PrereqsDone(cfg, s.st, n)
    ensures Verdict(cfg, init, MarkBuild(s, n))
  {
    var t := MarkBuild(s, n);
    assert Explained(cfg, init, s.st, n);
    assert PrereqsDone(cfg, t.st, n);
    VerdictMove(cfg, init, s, t, n, Building);
  }

  lemma MarkBuildWork(cfg: Config, init: map<Name, State>, s: Sys, n: Name)
    requires WorkOnce(cfg, init, s) && Is(s.st, n, SourceReady)
    ensures WorkOnce(cfg, init, MarkBuild(s, n))
  {
  }

  lemma MarkBuildReports(cfg: Config, init: map<Name, State>, s: Sys, n: Name)
    requires ReportOnce(cfg, s) && WorkOnce(cfg, init, s) && Is(s.st, n, SourceReady)
    requires !cfg.fetchOnly && n !in cfg.fetchOnlySet
    ensures ReportOnce(cfg, MarkBuild(s, n))
  {
    QuietKeeps(cfg, s, MarkBuild(s, n), n, Building);
  }

  lemma MarkBuildKeeps(cfg: Config, init: map<Name, State>, s: Sys, n: Name)
    requires Inv(cfg, init, s) && !s.returned && Is(s.st, n, SourceReady)
    requires !cfg.fetchOnly && n !in cfg.fetchOnlySet && PrereqsDone(cfg, s.st, n)
    requires MayEnter(cfg, s.st, n, Building)
    ensures Inv(cfg, init, MarkBuild(s, n))
  {
    MarkBuildShape(cfg, s, n);
    MarkBuildVerdict(cfg, init, s, n);
    SlotsMove(cfg, s, MarkBuild(s, n), n, Building);
    MarkBuildWork(cfg, init, s, n);
    MarkBuildReports(cfg, init, s, n);
  }

  lemma CondemnShape(cfg: Config, s: Sys, n: Name)
    requires Shape(cfg, s) && Is(s.st, n, SourceReady)
    ensures Shape(cfg, Report(s, n, BuildFailed))
  {
    PlacedFrame(s.st, s.toFetch, s.fetchPool, Fetching, n, BuildFailed);
    PlacedFrame(s.st, s.toBuild, s.buildPool, Building, n, BuildFailed);
  }

  lemma CondemnWork(cfg: Config, init: map<Name, State>, s: Sys, n: Name)
    requires Slots(cfg, s) && WorkOnce(cfg, init, s) && Is(s.st, n, SourceReady) && n in cfg.providers
    ensures Slots(cfg, Report(s, n, BuildFailed)) && WorkOnce(cfg, init, Report(s, n, BuildFailed))
  {
    SlotsMove(cfg, s, Report(s, n, BuildFailed), n, BuildFailed);
    WorkMove(cfg, init, s, Report(s, n, BuildFailed), n, BuildFailed);
  }

  lemma CondemnVerdict(cfg: Config, init: map<Name, State>, s: Sys, n: Name)
    requires Verdict(cfg, init, s) && !s.returned && Is(s.st, n, SourceReady)
    requires !cfg.fetchOnly && n !in cfg.fetchOnlySet && AnyPrereqFailed(cfg, s.st, n)
    ensures Verdict(cfg, init, Report(s, n, BuildFailed))
  {
    assert Explained(cfg, init, s.st, n);
    FailedPrereqBlocks(cfg, init, s, n);
    VerdictMove(cfg, init, s, Report(s, n, BuildFailed), n, BuildFailed);
  }

  lemma CondemnKeeps(cfg: Config, init: map<Name, State>, s: Sys, n: Name)
    requires Inv(cfg, init, s) && !s.returned && Is(s.st, n, SourceReady)
    requires !cfg.fetchOnly && n !in cfg.fetchOnlySet && AnyPrereqFailed(cfg, s.st, n)
    ensures Inv(cfg, init, Report(s, n, BuildFailed))
  {
    CondemnShape(cfg, s, n);
    CondemnVerdict(cfg, init, s, n);
    CondemnWork(cfg, init, s, n);
    ReportKeeps(cfg, s, n, BuildFailed);
  }

  /** A failed prereq is not buildable, so neither is the dep that needs it. */
  lemma FailedPrereqBlocks(cfg: Config, init: map<Name, State>, s: Sys, n: Name)
    requires Verdict(cfg, init, s) && Is(s.st, n, SourceReady) && AnyPrereqFailed(cfg, s.st, n)
    ensures !Buildable(cfg, init, n)
  {
    var m :| cfg.Needs(n, m) && (Is(s.st, m, FetchFailed) || Is(s.st, m, BuildFailed));
    assert Explained(cfg, init, s.st, m) && Explained(cfg, init, s.st, n);
    BuildableIff(cfg, init, m);
    BuildableIff(cfg, init, n);
  }

  /** Handing work over changes neither states nor completions. */
  ghost predicate SameView(s: Sys, t: Sys) {
    t.st == s.st && t.returned == s.returned && t.history == s.history && t.recent == s.recent
  }

  lemma ViewKeeps(cfg: Config, init: map<Name, State>, s: Sys, t: Sys)
    requires Verdict(cfg, init, s) && Slots(cfg, s) && SameView(s, t)
    ensures Verdict(cfg, init, t) && Slots(cfg, t)
  {
  }

  /** Both logs grow by names that are still being worked on at most. */
  lemma LogKeepsReports(cfg: Config, s: Sys, t: Sys, n: Name, x: State)
    requires ReportOnce(cfg, s) && SameView(s, t) && Is(s.st, n, x)
    requires (t.fetchLog == s.fetchLog + [n] && t.buildLog == s.buildLog && x == Fetching)
          || (t.buildLog == s.buildLog + [n] && t.fetchLog == s.fetchLog && x == Building)
    ensures ReportOnce(cfg, t)
  {
    forall m | Ended(cfg, t, m) ensures Ended(cfg, s, m) {
      assert m != n;
    }
  }

  lemma SubmitFetchShape(cfg: Config, s: Sys)
    requires Shape(cfg, s) && s.toFetch != []
    ensures Shape(cfg, SubmitFetch(s)) && Is(s.st, s.toFetch[0], Fetching)
  {
    PlacedSubmit(s.st, s.toFetch, s.fetchPool, Fetching);
  }

  lemma SubmitFetchWork(cfg: Config, init: map<Name, State>, s: Sys)
    requires WorkOnce(cfg, init, s) && NoDup(s.toFetch) && s.toFetch != []
    requires Is(s.st, s.toFetch[0], Fetching) && Is(init, s.toFetch[0], Pending)
    ensures WorkOnce(cfg, init, SubmitFetch(s))
  {
    var n, t := s.toFetch[0], SubmitFetch(s);
    assert n !in s.fetchLog && n !in t.toFetch;
    NoDupAppend(s.fetchLog, n);
  }

  lemma SubmitBuildShape(cfg: Config, s: Sys)
    requires Shape(cfg, s) && s.toBuild != []
    ensures Shape(cfg, SubmitBuild(s)) && Is(s.st, s.toBuild[0], Building)
  {
    PlacedSubmit(s.st, s.toBuild, s.buildPool, Building);
  }

  lemma SubmitBuildWork(cfg: Config, init: map<Name, State>, s: Sys)
    requires WorkOnce(cfg, init, s) && NoDup(s.toBuild) && s.toBuild != []
    requires Is(s.st, s.toBuild[0], Building) && s.toBuild[0] in init && !Terminal(init[s.toBuild[0]])
    ensures WorkOnce(cfg, init, SubmitBuild(s))
  {
    var n, t := s.toBuild[0], SubmitBuild(s);
    assert n !in s.buildLog && n !in t.toBuild;
    NoDupAppend(s.buildLog, n);
  }

  /** Why a dep may be under way. */
  lemma UnderWay(cfg: Config, init: map<Name, State>, s: Sys, n: Name)
    requires Verdict(cfg, init, s) && (Is(s.st, n, Fetching) || Is(s.st, n, Building))
    ensures n in init && n in cfg.providers && !Terminal(init[n]) && (s.st[n] == Fetching ==> init[n] == Pending)
    ensures s.st[n] == Building ==>
              !cfg.fetchOnly && FetchGood(cfg, init, n) && n !in cfg.fetchOnlySet && PrereqsDone(cfg, s.st, n)
  {
    assert Explained(cfg, init, s.st, n);
  }

  lemma SubmitFetchKeeps(cfg: Config, init: map<Name, State>, s: Sys)
    requires Inv(cfg, init, s) && s.toFetch != []
    ensures Inv(cfg, init, SubmitFetch(s))
  {
    var n, t := s.toFetch[0], SubmitFetch(s);
    SubmitFetchShape(cfg, s);
    UnderWay(cfg, init, s, n);
    SubmitFetchWork(cfg, init, s);
    ViewKeeps(cfg, init, s, t);
    LogKeepsReports(cfg, s, t, n, Fetching);
  }

  lemma SubmitBuildKeeps(cfg: Config, init: map<Name, State>, s: Sys)
    requires Inv(cfg, init, s) && s.toBuild != []
    ensures Inv(cfg, init, SubmitBuild(s))
  {
    var n, t := s.toBuild[0], SubmitBuild(s);
    SubmitBuildShape(cfg, s);
    UnderWay(cfg, init, s, n);
    SubmitBuildWork(cfg, init, s);
    ViewKeeps(cfg, init, s, t);
    LogKeepsReports(cfg, s, t, n, Building);
  }

  lemma QuietKeeps(cfg: Config, s: Sys, t: Sys, n: Name, x: State)
    requires ReportOnce(cfg, s) && n in s.st && !IsTerminal(cfg, n, s.st[n]) && n !in s.buildLog
    requires x != FetchFailed && (x == SourceReady ==> n !in cfg.fetchOnlySet)
    requires t.st == s.st[n := x] && t.history == s.history && t.recent == s.recent
    requires t.buildLog == s.buildLog && t.fetchLog == s.fetchLog
    ensures ReportOnce(cfg, t)
  {
  }

  lemma CommitFetchShape(cfg: Config, s: Sys, n: Name, ok: bool)
    requires Shape(cfg, s) && n in s.fetchPool
    ensures Is(s.st, n, Fetching) && Shape(cfg, CommitFetch(cfg, s, n, ok))
  {
    var x := if ok then SourceReady else FetchFailed;
    PlacedLeave(s.st, s.toFetch, s.fetchPool, Fetching, n, x);
    PlacedFrame(s.st, s.toBuild, s.buildPool, Building, n, x);
  }

  lemma CommitFetchVerdict(cfg: Config, init: map<Name, State>, s: Sys, n: Name)
    requires Verdict(cfg, init, s) && Is(s.st, n, Fetching) && n in cfg.providers
    ensures Verdict(cfg, init, CommitFetch(cfg, s, n, cfg.providers[n].fetchOk))
  {
    var t := CommitFetch(cfg, s, n, cfg.providers[n].fetchOk);
    assert Explained(cfg, init, s.st, n) && !s.returned;
    VerdictMove(cfg, init, s, t, n, t.st[n]);
  }

  lemma CommitFetchRest(cfg: Config, init: map<Name, State>, s: Sys, n: Name, ok: bool)
    requires Slots(cfg, s) && WorkOnce(cfg, init, s) && Is(s.st, n, Fetching) && n in cfg.providers && n !in s.buildLog
    ensures Slots(cfg, CommitFetch(cfg, s, n, ok)) && WorkOnce(cfg, init, CommitFetch(cfg, s, n, ok))
  {
    var t, x := CommitFetch(cfg, s, n, ok), if ok then SourceReady else FetchFailed;
    SlotsMove(cfg, s, t, n, x);
    WorkMove(cfg, init, s, t, n, x);
  }

  lemma CommitFetchReports(cfg: Config, s: Sys, n: Name, ok: bool)
    requires ReportOnce(cfg, s) && Is(s.st, n, Fetching) && n !in s.buildLog
    ensures ReportOnce(cfg, CommitFetch(cfg, s, n, ok))
  {
    var s1 := s.(fetchPool := s.fetchPool - multiset{n});
    assert ReportOnce(cfg, s1);
    if !ok {
      ReportKeeps(cfg, s1, n, FetchFailed);
    } else if n in cfg.fetchOnlySet {
      ReportKeeps(cfg, s1, n, SourceReady);
    } else {
      QuietKeeps(cfg, s1, CommitFetch(cfg, s, n, ok), n, SourceReady);
    }
  }

  lemma CommitFetchKeeps(cfg: Config, init: map<Name, State>, s: Sys, n: Name)
    requires Inv(cfg, init, s) && n in s.fetchPool && n in cfg.providers
    ensures Inv(cfg, init, CommitFetch(cfg, s, n, cfg.providers[n].fetchOk))
  {
    var ok := cfg.providers[n].fetchOk;
    CommitFetchShape(cfg, s, n, ok);
    CommitFetchVerdict(cfg, init, s, n);
    CommitFetchRest(cfg, init, s, n, ok);
    CommitFetchReports(cfg, s, n, ok);
  }

  lemma CommitBuildShape(cfg: Config, s: Sys, n: Name, ok: bool)
    requires Shape(cfg, s) && n in s.buildPool
    ensures Is(s.st, n, Building) && Shape(cfg, CommitBuild(s, n, ok))
  {
    var x := if ok then Done else BuildFailed;
    PlacedLeave(s.st, s.toBuild, s.buildPool, Building, n, x);
    PlacedFrame(s.st, s.toFetch, s.fetchPool, Fetching, n, x);
  }

  lemma CommitBuildRest(cfg: Config, init: map<Name, State>, s: Sys, n: Name, ok: bool)
    requires Slots(cfg, s) && WorkOnce(cfg, init, s) && Is(s.st, n, Building) && n in cfg.providers
    ensures Slots(cfg, CommitBuild(s, n, ok)) && WorkOnce(cfg, init, CommitBuild(s, n, ok))
  {
    var t, x := CommitBuild(s, n, ok), if ok then Done else BuildFailed;
    SlotsMove(cfg, s, t, n, x);
    WorkMove(cfg, init, s, t, n, x);
  }

  lemma CommitBuildVerdict(cfg: Config, init: map<Name, State>, s: Sys, n: Name)
    requires Verdict(cfg, init, s) && Is(s.st, n, Building) && n in cfg.providers
    ensures Verdict(cfg, init, CommitBuild(s, n, cfg.providers[n].buildOk))
  {
    var t := CommitBuild(s, n, cfg.providers[n].buildOk);
    assert Explained(cfg, init, s.st, n);
    BuildableIff(cfg, init, n);
    assert PrereqsDone(cfg, t.st, n);
    VerdictMove(cfg, init, s, t, n, t.st[n]);
  }

  lemma CommitBuildReports(cfg: Config, s: Sys, n: Name, ok: bool)
    requires ReportOnce(cfg, s) && Is(s.st, n, Building)
    ensures ReportOnce(cfg, CommitBuild(s, n, ok))
  {
    var s1 := s.(buildPool := s.buildPool - multiset{n});
    assert ReportOnce(cfg, s1);
    ReportKeeps(cfg, s1, n, if ok then Done else BuildFailed);
  }

  lemma CommitBuildKeeps(cfg: Config, init: map<Name, State>, s: Sys, n: Name)
    requires Inv(cfg, init, s) && n in s.buildPool && n in cfg.providers
    ensures Inv(cfg, init, CommitBuild(s, n, cfg.providers[n].buildOk))
  {
    var ok := cfg.providers[n].buildOk;
    CommitBuildShape(cfg, s, n, ok);
    CommitBuildVerdict(cfg, init, s, n);
    CommitBuildRest(cfg, init, s, n, ok);
    CommitBuildReports(cfg, s, n, ok);
  }

  // ---- a whole tick ----

  /** What the fetch dispatch does to the counter, the marks and the states. */
  lemma {:induction false} FetchPassEffect(cfg: Config, todo: seq<Name>, avail: nat, p: Pass)
    requires (forall n :: n in todo ==> n in cfg.providers) && p.inFlight == |InState(p.sys.st, Fetching)|
    ensures var r := FetchPass(cfg, todo, avail, p);
      && r.sys == p.sys.(st := r.sys.st, toFetch := r.sys.toFetch)
      && r.sys.st.Keys == p.sys.st.Keys
      && r.inFlight == |InState(r.sys.st, Fetching)|
      && r.inFlight - p.inFlight == |r.sys.toFetch| - |p.sys.toFetch| >= 0
      && (forall n, x :: x != Pending && Is(p.sys.st, n, x) ==> Is(r.sys.st, n, x))
      && (r.inFlight == 0 && |p.sys.toFetch| < avail ==> forall n :: n in todo ==> !Is(r.sys.st, n, Pending))
    decreases |todo|
  {
    if todo != [] && |p.sys.toFetch| < avail {
      var n := todo[0];
      if SkipsFetch(cfg, p, n) {
        FetchPassEffect(cfg, todo[1..], avail, p);
        assert n in p.sys.st ==> Is(p.sys.st, n, p.sys.st[n]);
      } else {
        var q := Pass(MarkFetch(p.sys, n), p.inFlight + 1);
        Recount(p.sys.st, n, Fetching, Fetching);
        FetchPassEffect(cfg, todo[1..], avail, q);
      }
    }
  }

  lemma {:induction false} FetchPassKeeps(cfg: Config, init: map<Name, State>, todo: seq<Name>, avail: nat, p: Pass)
    requires Inv(cfg, init, p.sys) && !p.sys.returned && (forall n :: n in todo ==> n in cfg.providers)
    requires p.inFlight == |InState(p.sys.st, Fetching)| && p.inFlight + avail <= cfg.fetchJobs + |p.sys.toFetch|
    ensures Inv(cfg, init, FetchPass(cfg, todo, avail, p).sys)
    decreases |todo|
  {
    if todo != [] && |p.sys.toFetch| < avail {
      var n := todo[0];
      if SkipsFetch(cfg, p, n) {
        FetchPassKeeps(cfg, init, todo[1..], avail, p);
      } else {
        MarkFetchKeeps(cfg, init, p.sys, n);
        Recount(p.sys.st, n, Fetching, Fetching);
        if !cfg.providers[n].serialFetch {
          FetchPassKeeps(cfg, init, todo[1..], avail, Pass(MarkFetch(p.sys, n), p.inFlight + 1));
        }
      }
    }
  }

  /** Nothing that could be built is waiting. */
  ghost predicate NoneWaiting(cfg: Config, st: map<Name, State>, names: seq<Name>) {
    forall n :: n in names && Is(st, n, SourceReady) && n !in cfg.fetchOnlySet ==> !PrereqsDone(cfg, st, n)
  }

  /** What the build dispatch does to the counter, the marks and the states. */
  lemma {:induction false} BuildPassEffect(cfg: Config, todo: seq<Name>, avail: nat, p: Pass)
    requires (forall n :: n in todo ==> n in cfg.providers) && p.inFlight == |InState(p.sys.st, Building)|
    ensures var r := BuildPass(cfg, todo, avail, p);
      && r.sys == p.sys.(st := r.sys.st, toBuild := r.sys.toBuild, history := r.sys.history, recent := r.sys.recent)
      && r.sys.st.Keys == p.sys.st.Keys
      && r.inFlight == |InState(r.sys.st, Building)|
      && r.inFlight - p.inFlight == |r.sys.toBuild| - |p.sys.toBuild| >= 0
      && (forall n, x :: x != SourceReady && Is(p.sys.st, n, x) ==> Is(r.sys.st, n, x))
      && (forall n, x :: x != Building && x != BuildFailed && Is(r.sys.st, n, x) ==> Is(p.sys.st, n, x))
    decreases |todo|
  {
    if todo != [] && |p.sys.toBuild| < avail {
      var n := todo[0];
      match BuildChoice(cfg, p, n) {
        case Skip =>
          BuildPassEffect(cfg, todo[1..], avail, p);
        case Blame =>
          Recount(p.sys.st, n, BuildFailed, Building);
          BuildPassEffect(cfg, todo[1..], avail, p.(sys := Report(p.sys, n, BuildFailed)));
        case Launch =>
          Recount(p.sys.st, n, Building, Building);
          BuildPassEffect(cfg, todo[1..], avail, Pass(MarkBuild(p.sys, n), p.inFlight + 1));
      }
    }
  }

  lemma BlameKeeps(cfg: Config, init: map<Name, State>, p: Pass, n: Name)
    requires Inv(cfg, init, p.sys) && !p.sys.returned && !cfg.fetchOnly && n in cfg.providers
    requires p.inFlight == |InState(p.sys.st, Building)| && BuildChoice(cfg, p, n) == Blame
    ensures var s := Report(p.sys, n, BuildFailed);
      Inv(cfg, init, s) && p.inFlight == |InState(s.st, Building)| && s.toBuild == p.sys.toBuild && !s.returned
  {
    CondemnKeeps(cfg, init, p.sys, n);
    Recount(p.sys.st, n, BuildFailed, Building);
  }

  lemma LaunchKeeps(cfg: Config, init: map<Name, State>, p: Pass, n: Name)
    requires Inv(cfg, init, p.sys) && !p.sys.returned && !cfg.fetchOnly && n in cfg.providers
    requires p.inFlight == |InState(p.sys.st, Building)| < cfg.buildJobs && BuildChoice(cfg, p, n) == Launch
    ensures var s := MarkBuild(p.sys, n);
      && Inv(cfg, init, s) && p.inFlight + 1 == |InState(s.st, Building)|
      && |s.toBuild| == |p.sys.toBuild| + 1 && !s.returned
  {
    MarkBuildKeeps(cfg, init, p.sys, n);
    Recount(p.sys.st, n, Building, Building);
  }

  /** The dispatch after a look at one dep. */
  ghost function AfterLook(cfg: Config, p: Pass, n: Name): Pass
    requires n in cfg.providers
  {
    match BuildChoice(cfg, p, n)
    case Skip => p
    case Blame => p.(sys := Report(p.sys, n, BuildFailed))
    case Launch => Pass(MarkBuild(p.sys, n), p.inFlight + 1)
  }

  /** A serial launch ends the dispatch. */
  ghost predicate StopsAfter(cfg: Config, p: Pass, n: Name)
    requires n in cfg.providers
  {
    BuildChoice(cfg, p, n) == Launch && cfg.providers[n].serialBuild
  }

  lemma {:induction false} BuildPassLooks(cfg: Config, todo: seq<Name>, avail: nat, p: Pass)
    requires (forall n :: n in todo ==> n in cfg.providers) && todo != [] && |p.sys.toBuild| < avail
    ensures var q := AfterLook(cfg, p, todo[0]);
      BuildPass(cfg, todo, avail, p)
        == if StopsAfter(cfg, p, todo[0]) then q else BuildPass(cfg, todo[1..], avail, q)
  {
  }

  lemma LookKeeps(cfg: Config, init: map<Name, State>, p: Pass, n: Name)
    requires Inv(cfg, init, p.sys) && !p.sys.returned && !cfg.fetchOnly && n in cfg.providers
    requires p.inFlight == |InState(p.sys.st, Building)| < cfg.buildJobs
    ensures var q := AfterLook(cfg, p, n);
      && Inv(cfg, init, q.sys) && !q.sys.returned && q.inFlight == |InState(q.sys.st, Building)|
      && q.inFlight - |q.sys.toBuild| == p.inFlight - |p.sys.toBuild|
  {
    match BuildChoice(cfg, p, n)
    case Skip =>
    case Blame => BlameKeeps(cfg, init, p, n);
    case Launch => LaunchKeeps(cfg, init, p, n);
  }

  lemma {:induction false} BuildPassKeeps(cfg: Config, init: map<Name, State>, todo: seq<Name>, avail: nat, p: Pass)
    requires Inv(cfg, init, p.sys) && !p.sys.returned && !cfg.fetchOnly
    requires forall n :: n in todo ==> n in cfg.providers
    requires p.inFlight == |InState(p.sys.st, Building)| && p.inFlight + avail <= cfg.buildJobs + |p.sys.toBuild|
    ensures Inv(cfg, init, BuildPass(cfg, todo, avail, p).sys)
    decreases |todo|
  {
    if todo != [] && |p.sys.toBuild| < avail {
      LookKeeps(cfg, init, p, todo[0]);
      BuildPassLooks(cfg, todo, avail, p);
      BuildPassKeeps(cfg, init, todo[1..], avail, AfterLook(cfg, p, todo[0]));
    }
  }

  /** A build dispatch that leaves the pool idle has looked at every dep and found none to build. */
  lemma {:induction false} IdlePassNoneWaiting(cfg: Config, todo: seq<Name>, avail: nat, p: Pass)
    requires (forall n :: n in todo ==> n in cfg.providers) && p.inFlight == |InState(p.sys.st, Building)|
    requires BuildPass(cfg, todo, avail, p).inFlight == 0 && |p.sys.toBuild| < avail
    ensures NoneWaiting(cfg, BuildPass(cfg, todo, avail, p).sys.st, todo)
    decreases |todo|
  {
    if todo != [] {
      var n := todo[0];
      BuildPassEffect(cfg, todo, avail, p);
      match BuildChoice(cfg, p, n) {
        case Skip =>
          BuildPassEffect(cfg, todo[1..], avail, p);
          IdlePassNoneWaiting(cfg, todo[1..], avail, p);
        case Blame =>
          Recount(p.sys.st, n, BuildFailed, Building);
          IdlePassNoneWaiting(cfg, todo[1..], avail, p.(sys := Report(p.sys, n, BuildFailed)));
        case Launch =>
          Recount(p.sys.st, n, Building, Building);
          BuildPassEffect(cfg, todo[1..], avail, Pass(MarkBuild(p.sys, n), p.inFlight + 1));
          assert false;
      }
    }
  }

  /** When nothing is in flight or left to fetch, and nothing can be built, every buildable dep is Done. */
  lemma {:induction false} StalledMeansDone(cfg: Config, init: map<Name, State>, s: Sys, k: nat, n: Name)
    requires Verdict(cfg, init, s) && InLevel(cfg, init, k, n)
    requires forall m :: m in s.st ==> s.st[m] != Pending && s.st[m] != Fetching && s.st[m] != Building
    requires forall m :: Is(s.st, m, SourceReady) && m !in cfg.fetchOnlySet ==> !PrereqsDone(cfg, s.st, m)
    ensures Is(s.st, n, Done)
    decreases k
  {
    assert n in s.st;
    assert Explained(cfg, init, s.st, n);
    if !Is(init, n, Done) {
      forall m | cfg.Needs(n, m) ensures Is(s.st, m, Done) {
        StalledMeansDone(cfg, init, s, k - 1, m);
      }
      assert PrereqsDone(cfg, s.st, n);
      assert InLevel(cfg, init, k, n);
    }
  }

  ghost predicate Idle(st: map<Name, State>) {
    forall n :: n in st ==> st[n] != Pending && st[n] != Fetching && st[n] != Building
  }

  lemma {:induction false} SweepKeeps(cfg: Config, init: map<Name, State>, s: Sys)
    requires Inv(cfg, init, s) && !cfg.fetchOnly && Idle(s.st)
    requires forall m :: Is(s.st, m, SourceReady) && m !in cfg.fetchOnlySet ==> !PrereqsDone(cfg, s.st, m)
    ensures Inv(cfg, init, Sweep(cfg, s).(returned := true))
  {
    var t := Sweep(cfg, s).(returned := true);
    SweepVerdict(cfg, init, s);
    SweepShape(cfg, s);
    SweepReports(cfg, s);
    assert InState(t.st, Fetching) == {} == InState(t.st, Building);
  }

  lemma SweepShape(cfg: Config, s: Sys)
    requires Shape(cfg, s) && Idle(s.st)
    ensures Shape(cfg, Sweep(cfg, s).(returned := true))
  {
    var t := Sweep(cfg, s).(returned := true);
    assert forall n, x :: (x == Fetching || x == Building) && n in s.st ==> !Is(s.st, n, x) && !Is(t.st, n, x);
  }

  lemma SweepReports(cfg: Config, s: Sys)
    requires ReportOnce(cfg, s) && Idle(s.st)
    ensures ReportOnce(cfg, Sweep(cfg, s).(returned := true))
  {
    var t := Sweep(cfg, s).(returned := true);
    forall e | e in t.history ensures Settled(cfg, t.st, e) {
      assert Settled(cfg, s.st, e);
    }
  }

  lemma SweepVerdict(cfg: Config, init: map<Name, State>, s: Sys)
    requires Verdict(cfg, init, s) && !cfg.fetchOnly && Idle(s.st)
    requires forall m :: Is(s.st, m, SourceReady) && m !in cfg.fetchOnlySet ==> !PrereqsDone(cfg, s.st, m)
    ensures Verdict(cfg, init, Sweep(cfg, s).(returned := true))
  {
    var t := Sweep(cfg, s).(returned := true);
    assert forall n, x :: Is(s.st, n, x) && IsTerminal(cfg, n, x) ==> Is(t.st, n, x);
    forall n | n in t.st ensures Explained(cfg, init, t.st, n) && (t.st[n] == Done ==> Buildable(cfg, init, n)) {
      assert Explained(cfg, init, s.st, n);
      if !IsTerminal(cfg, n, s.st[n]) && Buildable(cfg, init, n) {
        var k: nat :| InLevel(cfg, init, k, n);
        StalledMeansDone(cfg, init, s, k, n);
      }
      assert PrereqsDone(cfg, s.st, n) ==> PrereqsDone(cfg, t.st, n);
    }
  }

  lemma TickKeeps(cfg: Config, init: map<Name, State>, s: Sys)
    requires cfg.Valid() && Inv(cfg, init, s) && Enabled(cfg, s, TickNow)
    ensures Inv(cfg, init, Tick(cfg, s))
  {
    var nf, nb := |InState(s.st, Fetching)|, |InState(s.st, Building)|;
    var fs, bs := Free(cfg.fetchJobs, nf), Free(cfg.buildJobs, nb);
    var p := Pass(s.(toFetch := [], toBuild := []), nf);
    assert p.sys == s;
    FetchPassKeeps(cfg, init, cfg.deps, fs, p);
    FetchPassEffect(cfg, cfg.deps, fs, p);
    var f := TickFetches(cfg, s);
    assert InState(f.sys.st, Building) == InState(s.st, Building) by {
      FetchPassBuilding(cfg, cfg.deps, fs, p);
    }
    var q := Pass(f.sys, nb);
    var b := TickBuilds(cfg, s);
    if !cfg.fetchOnly {
      BuildPassKeeps(cfg, init, ByPriority(cfg), bs, q);
      BuildPassEffect(cfg, ByPriority(cfg), bs, q);
    }
    assert Inv(cfg, init, b.sys);
    if AllTerminal(cfg, b.sys.st) {
      ReturnKeeps(cfg, init, b.sys);
    } else if b.sys.toFetch == [] && b.sys.toBuild == [] && f.inFlight == 0 && b.inFlight == 0 {
      StalledTick(cfg, s);
      SweepKeeps(cfg, init, b.sys);
    }
  }

  lemma ReturnKeeps(cfg: Config, init: map<Name, State>, s: Sys)
    requires Inv(cfg, init, s) && AllTerminal(cfg, s.st)
    ensures Inv(cfg, init, s.(returned := true))
  {
  }

  lemma {:induction false} FetchPassBuilding(cfg: Config, todo: seq<Name>, avail: nat, p: Pass)
    requires forall n :: n in todo ==> n in cfg.providers
    ensures InState(FetchPass(cfg, todo, avail, p).sys.st, Building) == InState(p.sys.st, Building)
    decreases |todo|
  {
    if todo != [] && |p.sys.toFetch| < avail {
      if SkipsFetch(cfg, p, todo[0]) {
        FetchPassBuilding(cfg, todo[1..], avail, p);
      } else {
        FetchPassBuilding(cfg, todo[1..], avail, Pass(MarkFetch(p.sys, todo[0]), p.inFlight + 1));
      }
    }
  }

  lemma StalledFetches(cfg: Config, s: Sys)
    requires cfg.Valid() && s.st.Keys == cfg.providers.Keys && TickFetches(cfg, s).inFlight == 0
    ensures var st := TickFetches(cfg, s).sys.st;
      && st.Keys == s.st.Keys && InState(st, Building) == InState(s.st, Building)
      && InState(st, Fetching) == {} && forall n :: n in cfg.deps ==> !Is(st, n, Pending)
  {
    var nf := |InState(s.st, Fetching)|;
    var p := Pass(s.(toFetch := [], toBuild := []), nf);
    FetchPassEffect(cfg, cfg.deps, Free(cfg.fetchJobs, nf), p);
    FetchPassBuilding(cfg, cfg.deps, Free(cfg.fetchJobs, nf), p);
    FetchesLeaveNoBuildMark(cfg, s);
  }

  lemma FetchesLeaveNoBuildMark(cfg: Config, s: Sys)
    requires cfg.Valid()
    ensures TickFetches(cfg, s).sys.toBuild == []
  {
    var p := Pass(s.(toFetch := [], toBuild := []), |InState(s.st, Fetching)|);
    FetchPassEffect(cfg, cfg.deps, Free(cfg.fetchJobs, p.inFlight), p);
  }

  lemma StalledBuilds(cfg: Config, s: Sys)
    requires cfg.Valid() && s.st.Keys == cfg.providers.Keys && !cfg.fetchOnly
    requires TickFetches(cfg, s).inFlight == 0 && TickBuilds(cfg, s).inFlight == 0
    ensures var before, st := TickFetches(cfg, s).sys.st, TickBuilds(cfg, s).sys.st;
      && st.Keys == s.st.Keys && InState(st, Building) == {} && NoneWaiting(cfg, st, cfg.deps)
      && forall n, x :: x != Building && x != BuildFailed && Is(st, n, x) ==> Is(before, n, x)
  {
    var nb := |InState(s.st, Building)|;
    var p := Pass(TickFetches(cfg, s).sys, nb);
    StalledFetches(cfg, s);
    FetchesLeaveNoBuildMark(cfg, s);
    SortByKeeps(cfg.deps, PriorityKey(cfg));
    BuildPassEffect(cfg, ByPriority(cfg), Free(cfg.buildJobs, nb), p);
    IdlePassNoneWaiting(cfg, ByPriority(cfg), Free(cfg.buildJobs, nb), p);
  }

  /** A tick that finds nothing in flight and nothing to do sees only deps that cannot be built. */
  lemma StalledTick(cfg: Config, s: Sys)
    requires cfg.Valid() && s.st.Keys == cfg.providers.Keys
    requires var f, b := TickFetches(cfg, s), TickBuilds(cfg, s);
      !AllTerminal(cfg, b.sys.st) && f.inFlight == 0 && b.inFlight == 0
    ensures var st := TickBuilds(cfg, s).sys.st;
      && !cfg.fetchOnly && Idle(st)
      && forall m :: Is(st, m, SourceReady) && m !in cfg.fetchOnlySet ==> !PrereqsDone(cfg, st, m)
  {
    var before, st := TickFetches(cfg, s).sys.st, TickBuilds(cfg, s).sys.st;
    StalledFetches(cfg, s);
    if !cfg.fetchOnly {
      StalledBuilds(cfg, s);
    }
    forall n | n in st ensures st[n] != Pending && st[n] != Fetching && st[n] != Building {
      assert n in cfg.deps && !Is(before, n, Pending);
      assert n !in InState(st, Building) && n !in InState(before, Fetching);
      assert Is(st, n, st[n]);
    }
  }

  // ---- whole runs ----

  lemma ApplyKeeps(cfg: Config, init: map<Name, State>, s: Sys, e: Event)
    requires cfg.Valid() && Inv(cfg, init, s) && Enabled(cfg, s, e)
    ensures Inv(cfg, init, Apply(cfg, s, e))
  {
    match e {
      case TickNow => TickKeeps(cfg, init, s);
      case HandOverFetch => SubmitFetchKeeps(cfg, init, s);
      case HandOverBuild => SubmitBuildKeeps(cfg, init, s);
      case FetchFinished(n) => CommitFetchKeeps(cfg, init, s, n);
      case BuildFinished(n) => CommitBuildKeeps(cfg, init, s, n);
    }
  }

  lemma {:induction false} ExecKeeps(cfg: Config, init: map<Name, State>, s: Sys, events: seq<Event>)
    requires cfg.Valid() && Inv(cfg, init, s) && Allowed(cfg, s, events)
    ensures Inv(cfg, init, Exec(cfg, s, events))
    decreases |events|
  {
    if events != [] {
      ApplyKeeps(cfg, init, s, events[0]);
      ExecKeeps(cfg, init, Apply(cfg, s, events[0]), events[1..]);
    }
  }
}
