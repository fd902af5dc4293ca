/**
 The concurrent dep scheduler of bin_priv/obt.dep.pipeline.py as a state machine.

 Every block the program runs under its lock is one event: a scheduler tick, the commit of a
 finished fetch, the commit of a finished build.  Handing a marked dep to its worker pool happens
 after the lock is released, so each hand-over is an event of its own and may interleave with commits.
 */
module PipelineModel {
  import opened Basics
  import opened StableSort

  /** Dep names are only ever compared for equality. */
  type Name = nat

  datatype State = Pending | Fetching | SourceReady | FetchFailed | Building | Done | BuildFailed

  /** What decides whether a dep has to be built at all. */
  datatype Gate = Gate(supportsHost: bool, manifest: bool, force: bool, wipe: bool, incremental: bool)

  /** fetchOk and buildOk are what fetch_only() and build_and_install() return when they are called. */
  datatype Provider = Provider(
    required: seq<Option<Name>>, serialFetch: bool, serialBuild: bool, priority: int,
    fetchOk: bool, buildOk: bool, gate: Gate)

  datatype Config = Config(
    deps: seq<Name>, providers: map<Name, Provider>, fetchOnlySet: set<Name>, fetchOnly: bool,
    fetchJobs: nat, buildJobs: nat)
  {
    /** The thread pools reject a size of zero; every listed dep has a provider and no other has. */
    ghost predicate Valid() {
      && fetchJobs >= 1
      && buildJobs >= 1
      && forall n :: n in deps <==> n in providers
    }

    ghost predicate Needs(n: Name, m: Name) {
      n in providers && Some(m) in providers[n].required
    }
  }

  datatype Entry = Entry(name: Name, state: State)

  const RECENT_MAX: nat := 20

  /** A deque of bounded length: appending to a full one drops its oldest entry. */
  function Push(recent: seq<Entry>, e: Entry): seq<Entry> {
    var r := recent + [e];
    if |r| > RECENT_MAX then r[|r| - RECENT_MAX..] else r
  }

  datatype Sys = Sys(
    st: map<Name, State>,
    toFetch: seq<Name>, toBuild: seq<Name>,                 // marked, not yet handed to a pool
    fetchPool: multiset<Name>, buildPool: multiset<Name>,   // handed over, not yet committed
    fetchLog: seq<Name>, buildLog: seq<Name>,               // all hand-overs so far
    history: seq<Entry>, recent: seq<Entry>,                // all completions so far, and the deque
    returned: bool)

  function Start(init: map<Name, State>): Sys {
    Sys(init, [], [], multiset{}, multiset{}, [], [], [], [], false)
  }

  predicate Is(st: map<Name, State>, n: Name, x: State) {
    n in st && st[n] == x
  }

  function InState(st: map<Name, State>, x: State): set<Name> {
    set n | n in st && st[n] == x
  }

  ghost predicate PrereqsDone(cfg: Config, st: map<Name, State>, n: Name) {
    forall m :: cfg.Needs(n, m) ==> Is(st, m, Done)
  }

  ghost predicate AnyPrereqFailed(cfg: Config, st: map<Name, State>, n: Name) {
    exists m :: cfg.Needs(n, m) && (Is(st, m, FetchFailed) || Is(st, m, BuildFailed))
  }

  predicate Terminal(x: State) {
    x == Done || x == FetchFailed || x == BuildFailed
  }

  /** A dep that is only fetched also ends at SourceReady. */
  predicate IsTerminal(cfg: Config, n: Name, x: State) {
    Terminal(x) || (x == SourceReady && (cfg.fetchOnly || n in cfg.fetchOnlySet))
  }

  predicate AllTerminal(cfg: Config, st: map<Name, State>) {
    forall n :: n in st ==> IsTerminal(cfg, n, st[n])
  }

  // ---- single updates ----

  function Report(s: Sys, n: Name, x: State): Sys {
    s.(st := s.st[n := x], history := s.history + [Entry(n, x)], recent := Push(s.recent, Entry(n, x)))
  }

  function MarkFetch(s: Sys, n: Name): Sys {
    s.(st := s.st[n := Fetching], toFetch := s.toFetch + [n])
  }

  function MarkBuild(s: Sys, n: Name): Sys {
    s.(st := s.st[n := Building], toBuild := s.toBuild + [n])
  }

  function SubmitFetch(s: Sys): Sys
    requires s.toFetch != []
  {
    var n := s.toFetch[0];
    s.(toFetch := s.toFetch[1..], fetchPool := s.fetchPool + multiset{n}, fetchLog := s.fetchLog + [n])
  }

  function SubmitBuild(s: Sys): Sys
    requires s.toBuild != []
  {
    var n := s.toBuild[0];
    s.(toBuild := s.toBuild[1..], buildPool := s.buildPool + multiset{n}, buildLog := s.buildLog + [n])
  }

  function CommitFetch(cfg: Config, s: Sys, n: Name, ok: bool): Sys {
    var s1 := s.(fetchPool := s.fetchPool - multiset{n});
    if !ok then Report(s1, n, FetchFailed)
    else if n in cfg.fetchOnlySet then Report(s1, n, SourceReady)
    else s1.(st := s1.st[n := SourceReady])
  }

  function CommitBuild(s: Sys, n: Name, ok: bool): Sys {
    Report(s.(buildPool := s.buildPool - multiset{n}), n, if ok then Done else BuildFailed)
  }

  /** The names the scheduler gives up on become BuildFailed; no completion is reported for them. */
  function Sweep(cfg: Config, s: Sys): Sys {
    s.(st := map n | n in s.st :: if IsTerminal(cfg, n, s.st[n]) then s.st[n] else BuildFailed)
  }

  // ---- one tick ----

  /** The system together with the tick's own running counter. */
  datatype Pass = Pass(sys: Sys, inFlight: nat)

  predicate SkipsFetch(cfg: Config, p: Pass, n: Name)
    requires n in cfg.providers
  {
    !Is(p.sys.st, n, Pending) || (cfg.providers[n].serialFetch && p.inFlight > 0)
  }

  function FetchPass(cfg: Config, todo: seq<Name>, avail: nat, p: Pass): Pass
    requires forall n :: n in todo ==> n in cfg.providers
  {
    if todo == [] || |p.sys.toFetch| >= avail then p
    else if SkipsFetch(cfg, p, todo[0]) then FetchPass(cfg, todo[1..], avail, p)
    else
      var q := Pass(MarkFetch(p.sys, todo[0]), p.inFlight + 1);
      if cfg.providers[todo[0]].serialFetch then q else FetchPass(cfg, todo[1..], avail, q)
  }

  datatype Choice = Skip | Blame | Launch

  ghost function BuildChoice(cfg: Config, p: Pass, n: Name): Choice
    requires n in cfg.providers
  {
    if !Is(p.sys.st, n, SourceReady) || n in cfg.fetchOnlySet then Skip
    else if !PrereqsDone(cfg, p.sys.st, n) then
      if AnyPrereqFailed(cfg, p.sys.st, n) then Blame else Skip
    else if cfg.providers[n].serialBuild && p.inFlight > 0 then Skip
    else Launch
  }

  ghost function BuildPass(cfg: Config, todo: seq<Name>, avail: nat, p: Pass): Pass
    requires forall n :: n in todo ==> n in cfg.providers
  {
    if todo == [] || |p.sys.toBuild| >= avail then p
    else match BuildChoice(cfg, p, todo[0])
      case Skip => BuildPass(cfg, todo[1..], avail, p)
      case Blame => BuildPass(cfg, todo[1..], avail, p.(sys := Report(p.sys, todo[0], BuildFailed)))
      case Launch =>
        var q := Pass(MarkBuild(p.sys, todo[0]), p.inFlight + 1);
        if cfg.providers[todo[0]].serialBuild then q else BuildPass(cfg, todo[1..], avail, q)
  }

  function Free(jobs: nat, busy: nat): nat {
    if jobs > busy then jobs - busy else 0
  }

  function PriorityKey(cfg: Config): Name -> Key {
    n => Key(if n in cfg.providers then -cfg.providers[n].priority else 0, 0)
  }

  /** Highest build priority first; equal priorities keep the deps-first order of the list. */
  function ByPriority(cfg: Config): (r: seq<Name>)
    ensures cfg.Valid() ==> forall n :: n in r ==> n in cfg.providers
  {
    SortByKeeps(cfg.deps, PriorityKey(cfg));
    SortBy(cfg.deps, PriorityKey(cfg))
  }

  function TickFetches(cfg: Config, s: Sys): Pass
    requires cfg.Valid()
  {
    var busy := |InState(s.st, Fetching)|;
    FetchPass(cfg, cfg.deps, Free(cfg.fetchJobs, busy), Pass(s.(toFetch := [], toBuild := []), busy))
  }

  ghost function TickBuilds(cfg: Config, s: Sys): Pass
    requires cfg.Valid()
  {
    var busy := |InState(s.st, Building)|;
    var p := Pass(TickFetches(cfg, s).sys, busy);
    if cfg.fetchOnly then p else BuildPass(cfg, ByPriority(cfg), Free(cfg.buildJobs, busy), p)
  }

  ghost function Tick(cfg: Config, s: Sys): Sys
    requires cfg.Valid()
  {
    var f, b := TickFetches(cfg, s), TickBuilds(cfg, s);
    if AllTerminal(cfg, b.sys.st) then
      b.sys.(returned := true)
    else if b.sys.toFetch == [] && b.sys.toBuild == [] && f.inFlight == 0 && b.inFlight == 0 then
      Sweep(cfg, b.sys).(returned := true)
    else
      b.sys
  }

  // ---- events and runs ----

  datatype Event = TickNow | HandOverFetch | HandOverBuild | FetchFinished(name: Name) | BuildFinished(name: Name)

  /** The loop thread hands over all marked fetches, then all marked builds, then may tick again. */
  ghost predicate Enabled(cfg: Config, s: Sys, e: Event) {
    match e
    case TickNow => !s.returned && s.toFetch == [] && s.toBuild == []
    case HandOverFetch => !s.returned && s.toFetch != []
    case HandOverBuild => !s.returned && s.toFetch == [] && s.toBuild != []
    case FetchFinished(n) => n in s.fetchPool && n in cfg.providers
    case BuildFinished(n) => n in s.buildPool && n in cfg.providers
  }

  ghost function Apply(cfg: Config, s: Sys, e: Event): Sys
    requires cfg.Valid() && Enabled(cfg, s, e)
  {
    match e
    case TickNow => Tick(cfg, s)
    case HandOverFetch => SubmitFetch(s)
    case HandOverBuild => SubmitBuild(s)
    case FetchFinished(n) => CommitFetch(cfg, s, n, cfg.providers[n].fetchOk)
    case BuildFinished(n) => CommitBuild(s, n, cfg.providers[n].buildOk)
  }

  /** Any interleaving of ticks, hand-overs and worker completions. */
  ghost predicate Allowed(cfg: Config, s: Sys, events: seq<Event>)
    requires cfg.Valid()
    decreases |events|
  {
    events == [] || (Enabled(cfg, s, events[0]) && Allowed(cfg, Apply(cfg, s, events[0]), events[1..]))
  }

  ghost function Exec(cfg: Config, s: Sys, events: seq<Event>): Sys
    requires cfg.Valid() && Allowed(cfg, s, events)
    decreases |events|
  {
    if events == [] then s else Exec(cfg, Apply(cfg, s, events[0]), events[1..])
  }

  /** A run may start from any map in which no work is in flight. */
  ghost predicate Initial(cfg: Config, init: map<Name, State>) {
    && init.Keys == cfg.providers.Keys
    && forall n :: n in init ==> init[n] != Fetching && init[n] != Building
  }
}
