/** Properties of every run of the scheduler, under every interleaving. */
module PipelineSafety {
  import opened Basics
  import opened PipelineModel
  import opened PipelineOutcome
  import opened PipelineInvariant

  ghost predicate NothingInFlight(s: Sys) {
    && s.toFetch == [] && s.toBuild == [] && s.fetchPool == multiset{} && s.buildPool == multiset{}
    && forall n :: n in s.st ==> s.st[n] != Fetching && s.st[n] != Building
  }

  lemma ReturnedOutcome(cfg: Config, init: map<Name, State>, s: Sys)
    requires Verdict(cfg, init, s) && s.returned
    ensures s.st == Final(cfg, init)
    ensures forall n :: n in s.st ==> s.st[n] != Fetching && s.st[n] != Building
  {
    forall n | n in s.st ensures s.st[n] == Outcome(cfg, init, n) {
      assert Explained(cfg, init, s.st, n) && IsTerminal(cfg, n, s.st[n]);
    }
  }

  lemma EmptyPools(cfg: Config, s: Sys)
    requires Shape(cfg, s) && forall n :: n in s.st ==> s.st[n] != Fetching && s.st[n] != Building
    ensures NothingInFlight(s)
  {
    assert forall n :: s.fetchPool[n] == 0;
    assert forall n :: s.buildPool[n] == 0;
    assert forall n :: n in s.toFetch ==> Is(s.st, n, Fetching);
    assert forall n :: n in s.toBuild ==> Is(s.st, n, Building);
    HasElement(s.toFetch);
    HasElement(s.toBuild);
  }

  /** The state map at return is fixed before the run starts. */
  lemma ReturnedIsFinal(cfg: Config, init: map<Name, State>, events: seq<Event>)
    requires cfg.Valid() && Initial(cfg, init) && Allowed(cfg, Start(init), events)
    requires Exec(cfg, Start(init), events).returned
    ensures Exec(cfg, Start(init), events).st == Final(cfg, init)
    ensures NothingInFlight(Exec(cfg, Start(init), events))
  {
    StartInv(cfg, init);
    ExecKeeps(cfg, init, Start(init), events);
    ReturnedOutcome(cfg, init, Exec(cfg, Start(init), events));
    EmptyPools(cfg, Exec(cfg, Start(init), events));
  }

  /** Same graph, same outcomes; job counts, priorities, serial flags and list order may differ. */
  ghost predicate SameWork(a: Config, b: Config) {
    && a.fetchOnly == b.fetchOnly && a.fetchOnlySet == b.fetchOnlySet && a.providers.Keys == b.providers.Keys
    && forall n :: n in a.providers ==>
         var p, q := a.providers[n], b.providers[n];
         p.required == q.required && p.fetchOk == q.fetchOk && p.buildOk == q.buildOk
  }

  lemma {:induction false} SameLevels(a: Config, b: Config, init: map<Name, State>, k: nat, n: Name)
    requires SameWork(a, b)
    ensures InLevel(a, init, k, n) <==> InLevel(b, init, k, n)
    decreases k
  {
    if k > 0 {
      assert forall m :: a.Needs(n, m) <==> b.Needs(n, m);
      forall m | a.Needs(n, m) ensures InLevel(a, init, k - 1, m) <==> InLevel(b, init, k - 1, m) {
        SameLevels(a, b, init, k - 1, m);
      }
    }
  }

  lemma SameOutcome(a: Config, b: Config, init: map<Name, State>, n: Name)
    requires SameWork(a, b) && n in init
    ensures Outcome(a, init, n) == Outcome(b, init, n)
  {
    forall k: nat ensures InLevel(a, init, k, n) <==> InLevel(b, init, k, n) {
      SameLevels(a, b, init, k, n);
    }
  }

  lemma SameFinal(a: Config, b: Config, init: map<Name, State>)
    requires SameWork(a, b)
    ensures Final(a, init) == Final(b, init)
  {
    forall n | n in init ensures Outcome(a, init, n) == Outcome(b, init, n) {
      SameOutcome(a, b, init, n);
    }
  }

  /** Two runs of the same work end alike, however they were scheduled. */
  lemma ScheduleIndependent(a: Config, b: Config, init: map<Name, State>, run: seq<Event>, other: seq<Event>)
    requires a.Valid() && b.Valid() && SameWork(a, b) && Initial(a, init)
    requires Allowed(a, Start(init), run) && Exec(a, Start(init), run).returned
    requires Allowed(b, Start(init), other) && Exec(b, Start(init), other).returned
    ensures Exec(a, Start(init), run).st == Exec(b, Start(init), other).st
  {
    ReturnedIsFinal(a, init, run);
    ReturnedIsFinal(b, init, other);
    SameFinal(a, b, init);
  }

  /** Slot bounds and serial exclusion hold at every moment of every run. */
  lemma SlotBounds(cfg: Config, init: map<Name, State>, events: seq<Event>)
    requires cfg.Valid() && Initial(cfg, init) && Allowed(cfg, Start(init), events)
    ensures var st := Exec(cfg, Start(init), events).st;
      && |InState(st, Fetching)| <= cfg.fetchJobs && |InState(st, Building)| <= cfg.buildJobs
      && OneSerial(cfg, st)
  {
    StartInv(cfg, init);
    ExecKeeps(cfg, init, Start(init), events);
  }

  /** Each dep is handed to each pool at most once and reported at most once; the deque is the end of the history. */
  lemma WorkedAndReportedOnce(cfg: Config, init: map<Name, State>, events: seq<Event>)
    requires cfg.Valid() && Initial(cfg, init) && Allowed(cfg, Start(init), events)
    ensures var s := Exec(cfg, Start(init), events);
      && NoDup(s.fetchLog) && NoDup(s.buildLog)
      && (forall i, j :: 0 <= i < j < |s.history| ==> s.history[i].name != s.history[j].name)
      && (forall n :: Ended(cfg, s, n) ==> Entry(n, s.st[n]) in s.history)
      && s.recent == s.history[if |s.history| > 20 then |s.history| - 20 else 0..]
  {
    StartInv(cfg, init);
    ExecKeeps(cfg, init, Start(init), events);
  }

  lemma TickStays(cfg: Config, s: Sys, n: Name, x: State)
    requires cfg.Valid() && Is(s.st, n, x) && Terminal(x)
    ensures Is(Tick(cfg, s).st, n, x)
  {
    var p := Pass(s.(toFetch := [], toBuild := []), |InState(s.st, Fetching)|);
    FetchPassEffect(cfg, cfg.deps, Free(cfg.fetchJobs, p.inFlight), p);
    if !cfg.fetchOnly {
      var nb := |InState(s.st, Building)|;
      var q := Pass(TickFetches(cfg, s).sys, nb);
      FetchPassBuilding(cfg, cfg.deps, Free(cfg.fetchJobs, p.inFlight), p);
      BuildPassEffect(cfg, ByPriority(cfg), Free(cfg.buildJobs, nb), q);
    }
  }

  /** A worker commits to no dep but the one it works on. */
  lemma CommitLeaves(st: map<Name, State>, marked: seq<Name>, pool: multiset<Name>, busy: State, m: Name, n: Name,
      x: State)
    requires Placed(st, marked, pool, busy) && m in pool && Is(st, n, x) && x != busy
    ensures m != n
  {
    assert pool[m] > 0;
  }

  lemma CommitFetchStays(cfg: Config, s: Sys, m: Name, ok: bool, n: Name, x: State)
    requires Shape(cfg, s) && m in s.fetchPool && Is(s.st, n, x) && Terminal(x)
    ensures Is(CommitFetch(cfg, s, m, ok).st, n, x)
  {
    CommitLeaves(s.st, s.toFetch, s.fetchPool, Fetching, m, n, x);
  }

  lemma CommitBuildStays(cfg: Config, s: Sys, m: Name, ok: bool, n: Name, x: State)
    requires Shape(cfg, s) && m in s.buildPool && Is(s.st, n, x) && Terminal(x)
    ensures Is(CommitBuild(s, m, ok).st, n, x)
  {
    CommitLeaves(s.st, s.toBuild, s.buildPool, Building, m, n, x);
  }

  lemma ApplyStays(cfg: Config, s: Sys, e: Event, n: Name, x: State)
    requires cfg.Valid() && Shape(cfg, s) && Enabled(cfg, s, e)
    requires Is(s.st, n, x) && Terminal(x)
    ensures Is(Apply(cfg, s, e).st, n, x)
  {
    match e {
      case TickNow => TickStays(cfg, s, n, x);
      case HandOverFetch =>
      case HandOverBuild =>
      case FetchFinished(m) => CommitFetchStays(cfg, s, m, cfg.providers[m].fetchOk, n, x);
      case BuildFinished(m) => CommitBuildStays(cfg, s, m, cfg.providers[m].buildOk, n, x);
    }
  }

  /** A terminal state is never left. */
  lemma {:induction false} TerminalStays(cfg: Config, init: map<Name, State>, s: Sys, events: seq<Event>, n: Name,
      x: State)
    requires cfg.Valid() && Inv(cfg, init, s) && Allowed(cfg, s, events)
    requires Is(s.st, n, x) && Terminal(x)
    ensures Is(Exec(cfg, s, events).st, n, x)
    decreases |events|
  {
    if events != [] {
      ApplyStays(cfg, s, events[0], n, x);
      ApplyKeeps(cfg, init, s, events[0]);
      TerminalStays(cfg, init, Apply(cfg, s, events[0]), events[1..], n, x);
    }
  }

  lemma PrereqIsDone(cfg: Config, init: map<Name, State>, s: Sys, n: Name, m: Name)
    requires Verdict(cfg, init, s) && cfg.Needs(n, m)
    requires Is(s.st, n, Building) || (Is(s.st, n, Done) && !Is(init, n, Done))
    ensures Is(s.st, m, Done)
  {
    assert Explained(cfg, init, s.st, n);
  }

  /** Once a dep is being built, or a worker has built it, all its prereqs are Done, then and ever after. */
  lemma BuildOrderSafety(cfg: Config, init: map<Name, State>, before: seq<Event>, after: seq<Event>, n: Name, m: Name)
    requires cfg.Valid() && Initial(cfg, init) && Allowed(cfg, Start(init), before)
    requires Allowed(cfg, Exec(cfg, Start(init), before), after)
    requires var st := Exec(cfg, Start(init), before).st;
      Is(st, n, Building) || (Is(st, n, Done) && !Is(init, n, Done))
    requires cfg.Needs(n, m)
    ensures var s := Exec(cfg, Start(init), before);
      Is(s.st, m, Done) && Is(Exec(cfg, s, after).st, m, Done)
  {
    var s := Exec(cfg, Start(init), before);
    StartInv(cfg, init);
    ExecKeeps(cfg, init, Start(init), before);
    PrereqIsDone(cfg, init, s, n, m);
    TerminalStays(cfg, init, s, after, m, Done);
  }
}
