/**
 The scheduler with a single build slot, started with all sources ready and no build failing: the order in
 which it builds, and whether the printed build order is that order.
 */
module OneSlot {
  import opened Basics
  import opened StableSort
  import opened PipelineModel
  import opened PipelineInvariant
  import opened PipelineProgress
  import opened PipelineDispatch
  import opened KahnOrder
  import opened KahnLaws
  import opened KahnTies

  ghost predicate Setup(cfg: Config, init: map<Name, State>) {
    && cfg.Valid() && NoDup(cfg.deps) && cfg.buildJobs == 1 && !cfg.fetchOnly && cfg.fetchOnlySet == {}
    && init.Keys == cfg.providers.Keys
    && (forall n :: n in init ==> init[n] == SourceReady)
    && (forall n :: n in cfg.providers ==> cfg.providers[n].buildOk)
    && (forall n, m :: cfg.Needs(n, m) ==> m in cfg.providers)
  }

  ghost function Positions(cfg: Config): map<Name, int> {
    map n | n in cfg.providers :: Position(cfg.deps)(n)
  }

  /** The chain whose ties are broken by the place in the scheduler's own list. */
  ghost function ListChain(cfg: Config): Chain {
    Chain(cfg.deps, cfg.providers, Positions(cfg))
  }

  /** The deps that entered the Building state, in that order. */
  function Built(s: Sys): seq<Name> {
    s.buildLog + s.toBuild
  }

  ghost predicate OnTrack(cfg: Config, s: Sys) {
    && Greedy(ListChain(cfg), Built(s))
    && (forall n :: n in Built(s) <==> Is(s.st, n, Building) || Is(s.st, n, Done))
    && (forall n :: n in s.st && !s.returned ==> s.st[n] == SourceReady || s.st[n] == Building || s.st[n] == Done)
    && (s.returned ==> forall n :: !Available(ListChain(cfg), n, Built(s)))
  }

  lemma NoneInState(st: map<Name, State>, x: State)
    requires InState(st, x) == {}
    ensures forall m :: !Is(st, m, x)
  {
    forall m | m in st ensures st[m] != x {
      assert m !in InState(st, x);
    }
  }

  lemma AvailableIffEligible(cfg: Config, init: map<Name, State>, s: Sys, n: Name)
    requires Setup(cfg, init) && OnTrack(cfg, s) && !s.returned && s.st.Keys == cfg.providers.Keys
    requires InState(s.st, Building) == {}
    ensures Available(ListChain(cfg), n, Built(s)) <==> Eligible(cfg, s.st, n)
  {
    NoneInState(s.st, Building);
    assert forall m :: m in Built(s) <==> Is(s.st, m, Done);
    assert forall m :: ListChain(cfg).Needs(n, m) <==> cfg.Needs(n, m);
  }

  lemma {:induction false} NothingToFetch(cfg: Config, todo: seq<Name>, avail: nat, p: Pass)
    requires (forall n :: n in todo ==> n in cfg.providers) && forall n :: n in todo ==> !Is(p.sys.st, n, Pending)
    ensures FetchPass(cfg, todo, avail, p) == p
    decreases |todo|
  {
    if todo != [] && |p.sys.toFetch| < avail {
      NothingToFetch(cfg, todo[1..], avail, p);
    }
  }

  /** With one free slot and nothing failed, the build dispatch launches the first eligible dep, if any. */
  lemma {:induction false} LaunchesFirst(cfg: Config, todo: seq<Name>, p: Pass) returns (i: int)
    requires (forall n :: n in todo ==> n in cfg.providers) && p.inFlight == 0 && p.sys.toBuild == []
    requires forall n :: n in p.sys.st ==> p.sys.st[n] != FetchFailed && p.sys.st[n] != BuildFailed
    ensures 0 <= i <= |todo| && forall j :: 0 <= j < i ==> !Eligible(cfg, p.sys.st, todo[j])
    ensures i < |todo| ==> Eligible(cfg, p.sys.st, todo[i])
    ensures BuildPass(cfg, todo, 1, p) == if i < |todo| then Pass(MarkBuild(p.sys, todo[i]), 1) else p
    decreases |todo|
  {
    if todo == [] {
      i := 0;
    } else if Eligible(cfg, p.sys.st, todo[0]) {
      i := 0;
    } else {
      assert BuildChoice(cfg, p, todo[0]) == Skip;
      i := LaunchesFirst(cfg, todo[1..], p);
      i := i + 1;
      forall j | 0 <= j < i ensures !Eligible(cfg, p.sys.st, todo[j]) {
        assert j > 0 ==> todo[j] == todo[1..][j - 1];
      }
    }
  }

  lemma PrecedingIsNoWorse(cfg: Config, a: Name, b: Name)
    requires a == b || (Precedes(cfg, a, b) && a in cfg.deps && b in cfg.deps)
    ensures !Less(OrderKey(ListChain(cfg))(b), OrderKey(ListChain(cfg))(a))
  {
  }

  lemma BestIsFirst(cfg: Config, init: map<Name, State>, s: Sys, i: nat)
    requires Setup(cfg, init) && OnTrack(cfg, s) && !s.returned && s.st.Keys == cfg.providers.Keys
    requires InState(s.st, Building) == {} && i < |ByPriority(cfg)|
    requires Eligible(cfg, s.st, ByPriority(cfg)[i])
    requires forall j :: 0 <= j < i ==> !Eligible(cfg, s.st, ByPriority(cfg)[j])
    ensures Available(ListChain(cfg), ByPriority(cfg)[i], Built(s))
    ensures Greedy(ListChain(cfg), Built(s) + [ByPriority(cfg)[i]])
  {
    var ch, order := ListChain(cfg), ByPriority(cfg);
    var x := order[i];
    AvailableIffEligible(cfg, init, s, x);
    SortByKeeps(cfg.deps, PriorityKey(cfg));
    forall m | Available(ch, m, Built(s)) ensures !Less(OrderKey(ch)(m), OrderKey(ch)(x)) {
      AvailableIffEligible(cfg, init, s, m);
      var j :| 0 <= j < |order| && order[j] == m;
      if i < j {
        ByPriorityPrecedes(cfg, i, j);
      }
      PrecedingIsNoWorse(cfg, x, m);
    }
    GreedyExtends(ch, Built(s), x);
  }

  lemma LaunchOnTrack(cfg: Config, s: Sys, n: Name)
    requires OnTrack(cfg, s) && !s.returned && Is(s.st, n, SourceReady)
    requires Greedy(ListChain(cfg), Built(s) + [n])
    ensures OnTrack(cfg, MarkBuild(s, n)) && !AllTerminal(cfg, MarkBuild(s, n).st)
  {
    var t := MarkBuild(s, n);
    assert Built(t) == Built(s) + [n];
    assert n in t.st && !IsTerminal(cfg, n, t.st[n]);
    forall m ensures m in Built(t) <==> Is(t.st, m, Building) || Is(t.st, m, Done) {
      assert m in Built(t) <==> m in Built(s) || m == n;
    }
  }

  lemma NotEmpty<T>(s: set<T>, x: T)
    requires x in s
    ensures |s| > 0
  {
  }

  lemma NoFetching(cfg: Config, init: map<Name, State>, s: Sys)
    requires Setup(cfg, init) && OnTrack(cfg, s) && Enabled(cfg, s, TickNow) && s.st.Keys == cfg.providers.Keys
    ensures TickFetches(cfg, s) == Pass(s, 0)
  {
    assert InState(s.st, Fetching) == {};
    assert s.(toFetch := [], toBuild := []) == s;
    NothingToFetch(cfg, cfg.deps, Free(cfg.fetchJobs, 0), Pass(s, 0));
  }

  /** What a tick computes on an idle pool when there is nothing to fetch. */
  lemma IdleTick(cfg: Config, init: map<Name, State>, s: Sys) returns (i: int)
    requires Setup(cfg, init) && OnTrack(cfg, s) && Enabled(cfg, s, TickNow) && s.st.Keys == cfg.providers.Keys
    requires InState(s.st, Building) == {}
    ensures var order := ByPriority(cfg);
      && 0 <= i <= |order| && (forall j :: 0 <= j < i ==> !Eligible(cfg, s.st, order[j]))
      && (i < |order| ==> Eligible(cfg, s.st, order[i]))
      && TickBuilds(cfg, s) == (if i < |order| then Pass(MarkBuild(s, order[i]), 1) else Pass(s, 0))
      && TickFetches(cfg, s) == Pass(s, 0)
  {
    NoFetching(cfg, init, s);
    SortByKeeps(cfg.deps, PriorityKey(cfg));
    i := LaunchesFirst(cfg, ByPriority(cfg), Pass(s, 0));
  }

  lemma IdleTickOnTrack(cfg: Config, init: map<Name, State>, s: Sys)
    requires Setup(cfg, init) && OnTrack(cfg, s) && Enabled(cfg, s, TickNow) && s.st.Keys == cfg.providers.Keys
    requires InState(s.st, Building) == {}
    ensures OnTrack(cfg, Tick(cfg, s))
  {
    var order := ByPriority(cfg);
    var i := IdleTick(cfg, init, s);
    if i < |order| {
      BestIsFirst(cfg, init, s, i);
      LaunchOnTrack(cfg, s, order[i]);
    } else {
      SortByKeeps(cfg.deps, PriorityKey(cfg));
      forall n ensures !Available(ListChain(cfg), n, Built(s)) {
        AvailableIffEligible(cfg, init, s, n);
      }
      NoneInState(s.st, Building);
      ReturnOnTrack(cfg, s);
    }
  }

  lemma ReturnOnTrack(cfg: Config, s: Sys)
    requires OnTrack(cfg, s) && forall n :: !Available(ListChain(cfg), n, Built(s))
    requires forall n :: !Is(s.st, n, Building)
    ensures OnTrack(cfg, s.(returned := true)) && OnTrack(cfg, Sweep(cfg, s).(returned := true))
  {
    var t := Sweep(cfg, s).(returned := true);
    assert Built(t) == Built(s) == Built(s.(returned := true));
    forall n ensures Is(t.st, n, Building) || Is(t.st, n, Done) <==> Is(s.st, n, Done) {}
  }

  /** A full pool, or one without a marked dep more than it has slots, ends the build dispatch at once. */
  lemma {:induction false} NoFreeSlot(cfg: Config, s: Sys)
    requires cfg.Valid() && cfg.buildJobs == 1 && !cfg.fetchOnly && InState(s.st, Building) != {}
    requires TickFetches(cfg, s) == Pass(s, 0)
    ensures TickBuilds(cfg, s) == Pass(s, |InState(s.st, Building)|) && |InState(s.st, Building)| > 0
  {
    var n :| n in InState(s.st, Building);
    NotEmpty(InState(s.st, Building), n);
  }

  lemma {:induction false} BusyTickDoesNothing(cfg: Config, init: map<Name, State>, s: Sys)
    requires Setup(cfg, init) && OnTrack(cfg, s) && Enabled(cfg, s, TickNow) && s.st.Keys == cfg.providers.Keys
    requires InState(s.st, Building) != {}
    ensures Tick(cfg, s) == s
  {
    var n :| n in InState(s.st, Building);
    assert !IsTerminal(cfg, n, s.st[n]);
    NoFetching(cfg, init, s);
    NoFreeSlot(cfg, s);
  }

  lemma BuiltOnTrack(cfg: Config, s: Sys, n: Name)
    requires OnTrack(cfg, s) && Is(s.st, n, Building)
    requires s.returned ==> forall m :: !Is(s.st, m, Building)
    ensures OnTrack(cfg, CommitBuild(s, n, true))
  {
    var t := CommitBuild(s, n, true);
    assert Built(t) == Built(s);
    forall m ensures Is(t.st, m, Building) || Is(t.st, m, Done) <==> Is(s.st, m, Building) || Is(s.st, m, Done) {}
  }

  lemma HandOverOnTrack(cfg: Config, s: Sys)
    requires OnTrack(cfg, s) && s.toBuild != []
    ensures OnTrack(cfg, SubmitBuild(s))
  {
    assert Built(SubmitBuild(s)) == Built(s);
  }

  lemma NoFetchEvents(cfg: Config, s: Sys, e: Event)
    requires OnTrack(cfg, s) && Shape(cfg, s) && Enabled(cfg, s, e)
    requires s.returned ==> AllTerminal(cfg, s.st)
    ensures !e.HandOverFetch? && !e.FetchFinished?
  {
    assert forall n :: !Is(s.st, n, Fetching);
    HasElement(s.toFetch);
    assert e.FetchFinished? ==> s.fetchPool[e.name] > 0;
  }

  lemma StepOnTrack(cfg: Config, init: map<Name, State>, s: Sys, e: Event)
    requires Setup(cfg, init) && OnTrack(cfg, s) && Shape(cfg, s) && Enabled(cfg, s, e)
    requires s.returned ==> AllTerminal(cfg, s.st)
    ensures OnTrack(cfg, Apply(cfg, s, e))
  {
    NoFetchEvents(cfg, s, e);
    if e.TickNow? {
      if InState(s.st, Building) == {} {
        IdleTickOnTrack(cfg, init, s);
      } else {
        BusyTickDoesNothing(cfg, init, s);
      }
    } else if e.HandOverBuild? {
      HandOverOnTrack(cfg, s);
    } else {
      assert s.buildPool[e.name] > 0;
      BuiltOnTrack(cfg, s, e.name);
    }
  }

  lemma {:induction false} ExecOnTrack(cfg: Config, init: map<Name, State>, s: Sys, events: seq<Event>)
    requires Setup(cfg, init) && OnTrack(cfg, s) && Inv(cfg, init, s) && Allowed(cfg, s, events)
    ensures OnTrack(cfg, Exec(cfg, s, events))
    decreases |events|
  {
    if events != [] {
      StepOnTrack(cfg, init, s, events[0]);
      ApplyKeeps(cfg, init, s, events[0]);
      ExecOnTrack(cfg, init, Apply(cfg, s, events[0]), events[1..]);
    }
  }

  /** At all times the scheduler has built greedily, by priority and then by its list; at the end nothing is left. */
  lemma OneSlotBuildsGreedily(cfg: Config, init: map<Name, State>, events: seq<Event>)
    requires Setup(cfg, init) && Allowed(cfg, Start(init), events)
    ensures var s := Exec(cfg, Start(init), events);
      Greedy(ListChain(cfg), Built(s)) && (s.returned ==> IsBuildOrder(ListChain(cfg), Built(s)))
  {
    StartInv(cfg, init);
    ExecOnTrack(cfg, init, Start(init), events);
  }

  /** The printed order is the order of the one-slot build when both break ties alike on unrelated deps. */
  lemma ListingMatchesOneSlot(cfg: Config, init: map<Name, State>, events: seq<Event>, ch: Chain, printed: seq<Name>)
    requires Setup(cfg, init) && Allowed(cfg, Start(init), events) && Exec(cfg, Start(init), events).returned
    requires IsBuildOrder(ch, printed) && Agreeing(ch, ListChain(cfg))
    ensures Built(Exec(cfg, Start(init), events)) == printed
  {
    OneSlotBuildsGreedily(cfg, init, events);
    AgreeingTiesSameOrder(ch, ListChain(cfg), printed, Built(Exec(cfg, Start(init), events)));
  }

  // ---- exactly when the listing is the build ----

  /** The same work with other priorities. */
  ghost function Prioritised(cfg: Config, priorities: map<Name, int>): Config {
    cfg.(providers := Ranked(ListChain(cfg), priorities, Positions(cfg)).dict)
  }

  /** Under these priorities some run returns, having built in this order. */
  ghost predicate Builds(cfg: Config, init: map<Name, State>, priorities: map<Name, int>, built: seq<Name>) {
    var c := Prioritised(cfg, priorities);
    && c.Valid()
    && exists events :: Allowed(c, Start(init), events) && Exec(c, Start(init), events).returned
         && Built(Exec(c, Start(init), events)) == built
  }

  /** Under these priorities and indices this order is printed. */
  ghost predicate Prints(cfg: Config, index: map<Name, int>, priorities: map<Name, int>, printed: seq<Name>) {
    IsBuildOrder(Ranked(ListChain(cfg), priorities, index), printed)
  }

  ghost predicate PrintsWhatItBuilds(cfg: Config, init: map<Name, State>, index: map<Name, int>) {
    forall priorities, built, printed ::
      Builds(cfg, init, priorities, built) && Prints(cfg, index, priorities, printed) ==> built == printed
  }

  lemma PositionsIndex(cfg: Config)
    requires cfg.Valid() && NoDup(cfg.deps)
    ensures ListChain(cfg).Valid() && Indexes(ListChain(cfg), Positions(cfg))
  {
  }

  lemma PrioritisedSetup(cfg: Config, init: map<Name, State>, priorities: map<Name, int>)
    requires Setup(cfg, init)
    ensures Setup(Prioritised(cfg, priorities), init)
    ensures ListChain(Prioritised(cfg, priorities)) == Ranked(ListChain(cfg), priorities, Positions(cfg))
  {
    PrioritisedWork(cfg, priorities);
    PrioritisedChain(cfg, priorities);
  }

  lemma PrioritisedChain(cfg: Config, priorities: map<Name, int>)
    ensures ListChain(Prioritised(cfg, priorities)) == Ranked(ListChain(cfg), priorities, Positions(cfg))
  {
    assert Positions(Prioritised(cfg, priorities)) == Positions(cfg);
  }

  lemma PrioritisedWork(cfg: Config, priorities: map<Name, int>)
    ensures var c := Prioritised(cfg, priorities);
      && c.providers.Keys == cfg.providers.Keys
      && (forall n :: n in cfg.providers ==> c.providers[n].buildOk == cfg.providers[n].buildOk)
      && (forall n, m :: c.Needs(n, m) <==> cfg.Needs(n, m))
  {
  }

  lemma BuiltIsListed(cfg: Config, init: map<Name, State>, priorities: map<Name, int>, order: seq<Name>)
    requires Setup(cfg, init) && Builds(cfg, init, priorities, order)
    ensures Prints(cfg, Positions(cfg), priorities, order)
  {
    var c := Prioritised(cfg, priorities);
    PrioritisedSetup(cfg, init, priorities);
    var events :| Allowed(c, Start(init), events) && Exec(c, Start(init), events).returned
      && Built(Exec(c, Start(init), events)) == order;
    OneSlotBuildsGreedily(c, init, events);
  }

  /** Some run builds in the list order. */
  lemma SomethingIsBuilt(cfg: Config, init: map<Name, State>, priorities: map<Name, int>) returns (order: seq<Name>)
    requires Setup(cfg, init)
    ensures Builds(cfg, init, priorities, order) && Prints(cfg, Positions(cfg), priorities, order)
  {
    var c := Prioritised(cfg, priorities);
    PrioritisedSetup(cfg, init, priorities);
    StartInv(c, init);
    var events := CanReturn(c, init, Start(init));
    order := Built(Exec(c, Start(init), events));
    BuiltIsListed(cfg, init, priorities, order);
  }

  /** What is built is the greedy order of the list, and there is such a run for every choice of priorities. */
  lemma BuildsListOrder(cfg: Config, init: map<Name, State>, priorities: map<Name, int>, order: seq<Name>)
    requires Setup(cfg, init)
    ensures Builds(cfg, init, priorities, order) <==> Prints(cfg, Positions(cfg), priorities, order)
  {
    if Builds(cfg, init, priorities, order) {
      BuiltIsListed(cfg, init, priorities, order);
    }
    if Prints(cfg, Positions(cfg), priorities, order) {
      var built := SomethingIsBuilt(cfg, init, priorities);
      PositionsIndex(cfg);
      RankedGraph(ListChain(cfg), priorities, Positions(cfg));
      BuildOrderUnique(Ranked(ListChain(cfg), priorities, Positions(cfg)), order, built);
    }
  }

  /**
   The printed order is the order of the one-slot build, whatever the priorities, exactly when the index breaks
   the ties between unrelated deps as the scheduler's list does.
   */
  lemma ListingMatchesIffTiesAgree(cfg: Config, init: map<Name, State>, index: map<Name, int>)
    requires Setup(cfg, init) && Acyclic(ListChain(cfg)) && Indexes(ListChain(cfg), index)
    ensures Indexes(ListChain(cfg), Positions(cfg))
    ensures PrintsWhatItBuilds(cfg, init, index) <==> TiesAgree(ListChain(cfg), index, Positions(cfg))
  {
    var ch := ListChain(cfg);
    PositionsIndex(cfg);
    OrdersAgreeIffTiesAgree(ch, index, Positions(cfg));
    forall priorities, order
      ensures Builds(cfg, init, priorities, order) <==> Prints(cfg, Positions(cfg), priorities, order)
    {
      BuildsListOrder(cfg, init, priorities, order);
    }
    assert SameOrders(ch, index, Positions(cfg)) <==> PrintsWhatItBuilds(cfg, init, index) by {
      if PrintsWhatItBuilds(cfg, init, index) {
        forall p, x, y | IsBuildOrder(Ranked(ch, p, index), x) && IsBuildOrder(Ranked(ch, p, Positions(cfg)), y)
          ensures x == y
        {
          assert Prints(cfg, index, p, x) && Prints(cfg, Positions(cfg), p, y);
        }
      }
      if SameOrders(ch, index, Positions(cfg)) {
        forall p, built, printed | Builds(cfg, init, p, built) && Prints(cfg, index, p, printed)
          ensures built == printed
        {
          assert Prints(cfg, Positions(cfg), p, built);
        }
      }
    }
  }

  /** One unrelated pair that is tied differently is enough for a run and a listing that disagree. */
  lemma OneTieSuffices(cfg: Config, init: map<Name, State>, index: map<Name, int>, a: Name, b: Name)
      returns (priorities: map<Name, int>, built: seq<Name>, printed: seq<Name>)
    requires Setup(cfg, init) && Acyclic(ListChain(cfg)) && Indexes(ListChain(cfg), index)
    requires Unrelated(ListChain(cfg), a, b) && index[a] < index[b] && Positions(cfg)[b] < Positions(cfg)[a]
    ensures Builds(cfg, init, priorities, built) && Prints(cfg, index, priorities, printed) && built != printed
  {
    ListingMatchesIffTiesAgree(cfg, init, index);
    assert !TiesAgree(ListChain(cfg), index, Positions(cfg));
    priorities, built, printed :| Builds(cfg, init, priorities, built)
      && Prints(cfg, index, priorities, printed) && built != printed;
  }

  // ---- the indices a chain really hands out ----

  lemma {:induction false} TrailStaysIn(ch: Chain, path: seq<Name>, names: set<Name>, i: nat)
    requires Trail(ch, path) && path[0] in names && i < |path|
    requires forall n, m :: n in names && ch.Needs(n, m) ==> m in names
    ensures path[i] in names
    decreases i
  {
    if i > 0 {
      TrailStaysIn(ch, path, names, i - 1);
      assert ch.Needs(path[i - 1], path[i]);
    }
  }

  lemma DoesNotLead(ch: Chain, a: Name, b: Name, names: set<Name>)
    requires a in names && b !in names
    requires forall n, m :: n in names && ch.Needs(n, m) ==> m in names
    ensures !Leads(ch, a, b)
  {
    if path: seq<Name> :| Trail(ch, path) && path[0] == a && path[|path| - 1] == b {
      TrailStaysIn(ch, path, names, |path| - 1);
    }
  }

  function Plain(required: seq<Option<Name>>): Provider {
    Provider(required, false, false, 0, true, true, Gate(true, false, false, false, false))
  }

  /**
   A target 0 needs 1 and 3, and 1 needs 2.  Deps are numbered as they are discovered, depth first; the
   scheduler's list goes level by level.
   */
  const FOUR_DEPS: map<Name, Provider> :=
    map[0 := Plain([Some(1), Some(3)]), 1 := Plain([Some(2)]), 2 := Plain([]), 3 := Plain([])]

  const BY_LEVEL: seq<Name> := [2, 3, 1, 0]

  const DISCOVERY: map<Name, int> := map[0 := 0, 1 := 1, 2 := 2, 3 := 3]

  const FOUR: Config := Config(BY_LEVEL, FOUR_DEPS, {}, false, 1, 1)

  const FETCHED: map<Name, State> := map[0 := SourceReady, 1 := SourceReady, 2 := SourceReady, 3 := SourceReady]

  lemma ListedInOrderIsAcyclic(ch: Chain, order: seq<Name>)
    requires Topological(ch, order) && forall n :: n in ch.dict ==> n in order
    ensures Acyclic(ch)
  {
    forall n, path: seq<Name> | n in ch.dict && Trail(ch, path) && path[0] == n ensures NoDup(path) {
      forall i, j | 0 <= i < j < |path| ensures path[i] != path[j] {
        TrailDescends(ch, order, path, i, j);
      }
    }
  }

  ghost predicate NeedsOfFour(n: Name, m: Name) {
    (n == 0 && (m == 1 || m == 3)) || (n == 1 && m == 2)
  }

  lemma FourNeeds()
    ensures forall n :: n in FOUR_DEPS <==> 0 <= n <= 3
    ensures forall n, m :: FOUR.Needs(n, m) <==> NeedsOfFour(n, m)
    ensures forall n, m :: ListChain(FOUR).Needs(n, m) <==> NeedsOfFour(n, m)
  {
  }

  lemma FourSetup()
    ensures Setup(FOUR, FETCHED)
  {
    FourNeeds();
  }

  lemma FourGraph(ch: Chain)
    requires (forall n :: n in ch.dict <==> 0 <= n <= 3) && forall n, m :: ch.Needs(n, m) <==> NeedsOfFour(n, m)
    ensures Acyclic(ch) && Unrelated(ch, 1, 3)
  {
    var order: seq<Name> := [2, 3, 1, 0];
    assert Topological(ch, order) by {
      assert order[..2] == [2, 3] && order[..3] == [2, 3, 1];
    }
    ListedInOrderIsAcyclic(ch, order);
    DoesNotLead(ch, 1, 3, {1, 2});
    DoesNotLead(ch, 3, 1, {3});
  }

  lemma FourIndexes(ch: Chain)
    requires forall n :: n in ch.dict <==> 0 <= n <= 3
    ensures Indexes(ch, DISCOVERY) && DISCOVERY[1] < DISCOVERY[3]
  {
    assert forall n :: n in DISCOVERY <==> 0 <= n <= 3;
    assert forall n :: n in DISCOVERY ==> DISCOVERY[n] == n;
  }

  lemma FourPositions()
    ensures var here := Positions(FOUR); 1 in here && 3 in here && here[3] < here[1]
  {
    FourNeeds();
    assert BY_LEVEL[1] == 3 && BY_LEVEL[2] == 1 && 3 in BY_LEVEL && 1 in BY_LEVEL;
  }

  /** So for some priorities a run of the scheduler and the listing of this little project disagree. */
  lemma ListingCanDiffer() returns (priorities: map<Name, int>, built: seq<Name>, printed: seq<Name>)
    ensures Setup(FOUR, FETCHED)
    ensures Builds(FOUR, FETCHED, priorities, built) && Prints(FOUR, DISCOVERY, priorities, printed) && built != printed
  {
    FourSetup();
    FourNeeds();
    FourGraph(ListChain(FOUR));
    FourIndexes(ListChain(FOUR));
    FourPositions();
    priorities, built, printed := OneTieSuffices(FOUR, FETCHED, DISCOVERY, 1, 3);
  }
}
