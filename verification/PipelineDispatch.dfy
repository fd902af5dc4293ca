/** Which deps one tick picks, and in what order. */
module PipelineDispatch {
  import opened Basics
  import opened StableSort
  import opened PipelineModel
  import opened PipelineInvariant

  ghost predicate Eligible(cfg: Config, st: map<Name, State>, n: Name) {
    n in cfg.providers && Is(st, n, SourceReady) && n !in cfg.fetchOnlySet && PrereqsDone(cfg, st, n)
  }

  lemma {:induction false} MarksGrow(cfg: Config, todo: seq<Name>, avail: nat, p: Pass)
    requires forall n :: n in todo ==> n in cfg.providers
    ensures p.sys.toBuild <= BuildPass(cfg, todo, avail, p).sys.toBuild
    decreases |todo|
  {
    if todo != [] && |p.sys.toBuild| < avail {
      match BuildChoice(cfg, p, todo[0]) {
        case Skip => MarksGrow(cfg, todo[1..], avail, p);
        case Blame => MarksGrow(cfg, todo[1..], avail, p.(sys := Report(p.sys, todo[0], BuildFailed)));
        case Launch => MarksGrow(cfg, todo[1..], avail, Pass(MarkBuild(p.sys, todo[0]), p.inFlight + 1));
      }
    }
  }

  ghost function SerialBuilds(cfg: Config): set<Name> {
    set n | n in cfg.providers && cfg.providers[n].serialBuild
  }

  ghost function SerialFetches(cfg: Config): set<Name> {
    set n | n in cfg.providers && cfg.providers[n].serialFetch
  }

  /**
   The i-th dep is launched; or the pass fills its slots or launches a serial dep first, and then every launched dep
   stands before the i-th in the list.
   */
  ghost predicate Served(todo: seq<Name>, i: nat, avail: nat, serial: set<Name>, before: seq<Name>, marks: seq<Name>)
    requires i < |todo|
  {
    var added := Added(before, marks);
    || todo[i] in added
    || ((|marks| >= avail || exists m :: m in added && m in serial) && forall m :: m in added ==> m in todo[..i])
  }

  lemma ServedLater(todo: seq<Name>, i: nat, avail: nat, serial: set<Name>, before: seq<Name>, marks: seq<Name>)
    requires 0 < i < |todo| && Served(todo[1..], i - 1, avail, serial, before, marks)
    ensures Served(todo, i, avail, serial, before, marks)
  {
    assert todo[1..][i - 1] == todo[i];
    assert todo[1..][..i - 1] == todo[1..i];
  }

  lemma ServedAfter(todo: seq<Name>, i: nat, avail: nat, serial: set<Name>, before: seq<Name>, marks: seq<Name>)
    requires 0 < i < |todo| && before + [todo[0]] <= marks
    requires Served(todo[1..], i - 1, avail, serial, before + [todo[0]], marks)
    ensures Served(todo, i, avail, serial, before, marks)
  {
    assert todo[1..][..i - 1] == todo[1..i] && todo[..i] == [todo[0]] + todo[1..i];
    assert Added(before, marks) == [todo[0]] + Added(before + [todo[0]], marks);
  }

  lemma ServedNow(todo: seq<Name>, i: nat, avail: nat, serial: set<Name>, before: seq<Name>, marks: seq<Name>)
    requires i < |todo| && before + [todo[0]] <= marks
    requires todo[0] == todo[i] || (todo[0] in serial && marks == before + [todo[0]])
    ensures Served(todo, i, avail, serial, before, marks)
  {
    assert marks[|before|] == todo[0] && todo[0] in Added(before, marks);
    if todo[0] != todo[i] {
      assert Added(before, marks) == [todo[0]];
    }
  }

  /** An eligible dep that may share the pool is served. */
  lemma {:induction false} PassServes(cfg: Config, todo: seq<Name>, avail: nat, p: Pass, i: nat)
    requires forall n :: n in todo ==> n in cfg.providers
    requires i < |todo| && Eligible(cfg, p.sys.st, todo[i]) && !cfg.providers[todo[i]].serialBuild
    ensures Served(todo, i, avail, SerialBuilds(cfg), p.sys.toBuild, BuildPass(cfg, todo, avail, p).sys.toBuild)
    decreases |todo|
  {
    if |p.sys.toBuild| < avail {
      var n, serial := todo[0], SerialBuilds(cfg);
      var marks := BuildPass(cfg, todo, avail, p).sys.toBuild;
      match BuildChoice(cfg, p, n) {
        case Skip =>
          PassServes(cfg, todo[1..], avail, p, i - 1);
          ServedLater(todo, i, avail, serial, p.sys.toBuild, marks);
        case Blame =>
          StaysEligible(cfg, p.sys.st, n, BuildFailed, todo[i]);
          PassServes(cfg, todo[1..], avail, p.(sys := Report(p.sys, n, BuildFailed)), i - 1);
          ServedLater(todo, i, avail, serial, p.sys.toBuild, marks);
        case Launch =>
          var q := Pass(MarkBuild(p.sys, n), p.inFlight + 1);
          MarksGrow(cfg, todo[1..], avail, q);
          if n != todo[i] && !cfg.providers[n].serialBuild {
            StaysEligible(cfg, p.sys.st, n, Building, todo[i]);
            PassServes(cfg, todo[1..], avail, q, i - 1);
            ServedAfter(todo, i, avail, serial, p.sys.toBuild, marks);
          } else {
            ServedNow(todo, i, avail, serial, p.sys.toBuild, marks);
          }
      }
    }
  }

  /** The same for fetches, which wait for no prereq. */
  lemma {:induction false} FetchPassServes(cfg: Config, todo: seq<Name>, avail: nat, p: Pass, i: nat)
    requires forall n :: n in todo ==> n in cfg.providers
    requires i < |todo| && Is(p.sys.st, todo[i], Pending) && !cfg.providers[todo[i]].serialFetch
    ensures Served(todo, i, avail, SerialFetches(cfg), p.sys.toFetch, FetchPass(cfg, todo, avail, p).sys.toFetch)
    decreases |todo|
  {
    if |p.sys.toFetch| < avail {
      var n, serial := todo[0], SerialFetches(cfg);
      var marks := FetchPass(cfg, todo, avail, p).sys.toFetch;
      if SkipsFetch(cfg, p, n) {
        FetchPassServes(cfg, todo[1..], avail, p, i - 1);
        ServedLater(todo, i, avail, serial, p.sys.toFetch, marks);
      } else {
        var q := Pass(MarkFetch(p.sys, n), p.inFlight + 1);
        FetchMarksGrow(cfg, todo[1..], avail, q);
        if n != todo[i] && !cfg.providers[n].serialFetch {
          FetchPassServes(cfg, todo[1..], avail, q, i - 1);
          ServedAfter(todo, i, avail, serial, p.sys.toFetch, marks);
        } else {
          ServedNow(todo, i, avail, serial, p.sys.toFetch, marks);
        }
      }
    }
  }

  lemma StaysEligible(cfg: Config, st: map<Name, State>, n: Name, x: State, m: Name)
    requires Is(st, n, SourceReady) && n != m && Eligible(cfg, st, m)
    ensures Eligible(cfg, st[n := x], m)
  {
    forall k | cfg.Needs(m, k) ensures Is(st[n := x], k, Done) {
      assert Is(st, k, Done);
    }
  }

  lemma {:induction false} LaunchComesFirst(cfg: Config, todo: seq<Name>, avail: nat, p: Pass)
    requires (forall n :: n in todo ==> n in cfg.providers) && todo != [] && |p.sys.toBuild| < avail
    requires BuildChoice(cfg, p, todo[0]) == Launch
    ensures var q := MarkBuild(p.sys, todo[0]); var marks := BuildPass(cfg, todo, avail, p).sys.toBuild;
      Added(p.sys.toBuild, marks) == [todo[0]] + Added(q.toBuild, marks)
  {
    MarksGrow(cfg, todo[1..], avail, Pass(MarkBuild(p.sys, todo[0]), p.inFlight + 1));
  }

  /** Whatever is launched was eligible, and a serial dep is launched only alone and on an idle pool. */
  lemma {:induction false} PassLaunches(cfg: Config, todo: seq<Name>, avail: nat, p: Pass, m: Name)
    requires forall n :: n in todo ==> n in cfg.providers
    requires m in Added(p.sys.toBuild, BuildPass(cfg, todo, avail, p).sys.toBuild)
    ensures m in todo && Eligible(cfg, p.sys.st, m)
    ensures cfg.providers[m].serialBuild ==>
      p.inFlight == 0 && BuildPass(cfg, todo, avail, p).sys.toBuild == p.sys.toBuild + [m]
    decreases |todo|
  {
    var n := todo[0];
    var r := BuildPass(cfg, todo, avail, p);
    match BuildChoice(cfg, p, n) {
      case Skip =>
        PassLaunches(cfg, todo[1..], avail, p, m);
      case Blame =>
        var q := p.(sys := Report(p.sys, n, BuildFailed));
        PassLaunches(cfg, todo[1..], avail, q, m);
        EligibleBefore(cfg, p.sys.st, n, BuildFailed, m);
      case Launch =>
        var q := Pass(MarkBuild(p.sys, n), p.inFlight + 1);
        LaunchComesFirst(cfg, todo, avail, p);
        if !cfg.providers[n].serialBuild && m in Added(q.sys.toBuild, r.sys.toBuild) {
          PassLaunches(cfg, todo[1..], avail, q, m);
          EligibleBefore(cfg, p.sys.st, n, Building, m);
        }
    }
  }

  lemma EligibleBefore(cfg: Config, st: map<Name, State>, n: Name, x: State, m: Name)
    requires x != SourceReady && x != Done && Eligible(cfg, st[n := x], m)
    ensures Eligible(cfg, st, m)
  {
    forall k | cfg.Needs(m, k) ensures Is(st, k, Done) {
      assert Is(st[n := x], k, Done);
    }
  }

  lemma EligibleAfterFetches(cfg: Config, s: Sys, n: Name)
    requires cfg.Valid() && s.st.Keys == cfg.providers.Keys
    ensures Eligible(cfg, TickFetches(cfg, s).sys.st, n) <==> Eligible(cfg, s.st, n)
    ensures InState(TickFetches(cfg, s).sys.st, Building) == InState(s.st, Building)
  {
    var p := Pass(s.(toFetch := [], toBuild := []), |InState(s.st, Fetching)|);
    var avail := Free(cfg.fetchJobs, p.inFlight);
    FetchPassEffect(cfg, cfg.deps, avail, p);
    FetchPassBuilding(cfg, cfg.deps, avail, p);
    FetchPassOnlyFetches(cfg, cfg.deps, avail, p);
    var st := TickFetches(cfg, s).sys.st;
    assert forall m :: Is(st, m, Done) <==> Is(s.st, m, Done);
    assert Is(st, n, SourceReady) <==> Is(s.st, n, SourceReady);
  }

  lemma {:induction false} FetchPassOnlyFetches(cfg: Config, todo: seq<Name>, avail: nat, p: Pass)
    requires forall n :: n in todo ==> n in cfg.providers
    ensures var r := FetchPass(cfg, todo, avail, p);
      forall n, x :: x != Fetching && Is(r.sys.st, n, x) ==> Is(p.sys.st, n, x)
    decreases |todo|
  {
    if todo != [] && |p.sys.toFetch| < avail {
      if SkipsFetch(cfg, p, todo[0]) {
        FetchPassOnlyFetches(cfg, todo[1..], avail, p);
      } else {
        var q := Pass(MarkFetch(p.sys, todo[0]), p.inFlight + 1);
        FetchPassOnlyFetches(cfg, todo[1..], avail, q);
        assert forall n, x :: x != Fetching && Is(q.sys.st, n, x) ==> Is(p.sys.st, n, x);
      }
    }
  }

  /** a comes before b in the dispatch order: higher priority, or equal priority and earlier in the list. */
  ghost predicate Precedes(cfg: Config, a: Name, b: Name) {
    && a in cfg.providers && b in cfg.providers
    && (cfg.providers[a].priority > cfg.providers[b].priority
        || (cfg.providers[a].priority == cfg.providers[b].priority && Position(cfg.deps)(a) < Position(cfg.deps)(b)))
  }

  lemma ByPriorityPrecedes(cfg: Config, i: nat, j: nat)
    requires cfg.Valid() && NoDup(cfg.deps) && i < j < |ByPriority(cfg)|
    ensures Precedes(cfg, ByPriority(cfg)[i], ByPriority(cfg)[j])
  {
    var order := ByPriority(cfg);
    SortByOrdered(cfg.deps, PriorityKey(cfg), Position(cfg.deps));
    assert Before(PriorityKey(cfg), Position(cfg.deps), order[i], order[j]);
  }

  lemma TickServes(cfg: Config, s: Sys, n: Name) returns (i: nat)
    requires cfg.Valid() && s.st.Keys == cfg.providers.Keys && !cfg.fetchOnly
    requires Eligible(cfg, s.st, n) && !cfg.providers[n].serialBuild
    ensures i < |ByPriority(cfg)| && ByPriority(cfg)[i] == n
    ensures Served(ByPriority(cfg), i, Free(cfg.buildJobs, |InState(s.st, Building)|), SerialBuilds(cfg),
              TickFetches(cfg, s).sys.toBuild, TickBuilds(cfg, s).sys.toBuild)
  {
    var order, nb := ByPriority(cfg), |InState(s.st, Building)|;
    SortByKeeps(cfg.deps, PriorityKey(cfg));
    EligibleAfterFetches(cfg, s, n);
    i :| 0 <= i < |order| && order[i] == n;
    PassServes(cfg, order, Free(cfg.buildJobs, nb), Pass(TickFetches(cfg, s).sys, nb), i);
  }

  lemma TickMarks(cfg: Config, s: Sys)
    requires cfg.Valid()
    ensures Tick(cfg, s).toBuild == TickBuilds(cfg, s).sys.toBuild && TickFetches(cfg, s).sys.toBuild == []
  {
    FetchesLeaveNoBuildMark(cfg, s);
  }

  lemma ServedFromNone(todo: seq<Name>, i: nat, avail: nat, serial: set<Name>, marks: seq<Name>)
    requires i < |todo| && Served(todo, i, avail, serial, [], marks) && todo[i] !in marks
    ensures forall m :: m in marks ==> m in todo[..i]
    ensures |marks| >= avail || exists m :: m in marks && m in serial
  {
    assert Added([], marks) == marks;
  }

  /**
   No priority inversion, and no idle slot while work waits: an eligible non-serial dep that a tick leaves
   waiting stands behind every dep the tick launched; and the tick has filled all free slots or launched
   a serial dep.
   */
  lemma {:induction false} TickServesByPriority(cfg: Config, s: Sys, n: Name)
    requires cfg.Valid() && NoDup(cfg.deps) && s.st.Keys == cfg.providers.Keys && !cfg.fetchOnly
    requires Eligible(cfg, s.st, n) && !cfg.providers[n].serialBuild
    ensures var launched := Tick(cfg, s).toBuild;
      n !in launched ==>
        && (forall m :: m in launched ==> Precedes(cfg, m, n))
        && (|InState(s.st, Building)| + |launched| >= cfg.buildJobs
            || exists m :: m in launched && m in cfg.providers && cfg.providers[m].serialBuild)
  {
    var order, launched := ByPriority(cfg), Tick(cfg, s).toBuild;
    var i := TickServes(cfg, s, n);
    TickMarks(cfg, s);
    if n !in launched {
      ServedFromNone(order, i, Free(cfg.buildJobs, |InState(s.st, Building)|), SerialBuilds(cfg), launched);
      forall m | m in launched ensures Precedes(cfg, m, n) {
        var j :| 0 <= j < i && order[j] == m;
        ByPriorityPrecedes(cfg, j, i);
      }
    }
  }

  /** On an idle pool the first eligible dep that a pass comes to is launched, be it serial or not. */
  lemma {:induction false} IdlePassServes(cfg: Config, todo: seq<Name>, avail: nat, p: Pass, i: nat) returns (j: nat)
    requires (forall n :: n in todo ==> n in cfg.providers) && i < |todo| && Eligible(cfg, p.sys.st, todo[i])
    requires p.inFlight == 0 && |p.sys.toBuild| < avail
    ensures j <= i && todo[j] in Added(p.sys.toBuild, BuildPass(cfg, todo, avail, p).sys.toBuild)
    decreases |todo|
  {
    match BuildChoice(cfg, p, todo[0]) {
      case Skip =>
        j := IdlePassServes(cfg, todo[1..], avail, p, i - 1);
        j := j + 1;
      case Blame =>
        StaysEligible(cfg, p.sys.st, todo[0], BuildFailed, todo[i]);
        j := IdlePassServes(cfg, todo[1..], avail, p.(sys := Report(p.sys, todo[0], BuildFailed)), i - 1);
        j := j + 1;
      case Launch =>
        LaunchComesFirst(cfg, todo, avail, p);
        j := 0;
    }
  }

  lemma SomeLaunchUpTo(cfg: Config, s: Sys, n: Name) returns (m: Name)
    requires cfg.Valid() && NoDup(cfg.deps) && s.st.Keys == cfg.providers.Keys && !cfg.fetchOnly
    requires Eligible(cfg, s.st, n) && InState(s.st, Building) == {}
    ensures m in Tick(cfg, s).toBuild && (m == n || Precedes(cfg, m, n))
  {
    var order, q := ByPriority(cfg), Pass(TickFetches(cfg, s).sys, 0);
    SortByKeeps(cfg.deps, PriorityKey(cfg));
    EligibleAfterFetches(cfg, s, n);
    TickMarks(cfg, s);
    var i :| 0 <= i < |order| && order[i] == n;
    var j := IdlePassServes(cfg, order, Free(cfg.buildJobs, 0), q, i);
    assert Added([], Tick(cfg, s).toBuild) == Tick(cfg, s).toBuild;
    m := order[j];
    if j < i {
      ByPriorityPrecedes(cfg, j, i);
    }
  }

  lemma NotBoth(cfg: Config, a: Name, b: Name)
    requires Precedes(cfg, a, b)
    ensures !Precedes(cfg, b, a) && a != b
  {
  }

  /**
   A serial dep is not passed over: whichever eligible dep comes first in the dispatch order, serial or not, is launched
   as soon as no build is running; a serial one then all alone, however many slots there are.
   */
  lemma {:induction false} FirstEligibleStarts(cfg: Config, s: Sys, n: Name)
    requires cfg.Valid() && NoDup(cfg.deps) && s.st.Keys == cfg.providers.Keys && !cfg.fetchOnly
    requires Eligible(cfg, s.st, n) && InState(s.st, Building) == {}
    requires forall m :: Eligible(cfg, s.st, m) && m != n ==> Precedes(cfg, n, m)
    ensures n in Tick(cfg, s).toBuild
    ensures cfg.providers[n].serialBuild ==> Tick(cfg, s).toBuild == [n]
  {
    var m := SomeLaunchUpTo(cfg, s, n);
    LaunchedWasEligible(cfg, s, m);
    if m != n {
      NotBoth(cfg, m, n);
    }
    if cfg.providers[n].serialBuild {
      SerialBuildStartsIdle(cfg, s, n);
    }
  }

  /** What a tick launches it launches in dispatch order. */
  lemma {:induction false} LaunchedInOrder(cfg: Config, s: Sys, i: nat, j: nat)
    requires cfg.Valid() && NoDup(cfg.deps) && !cfg.fetchOnly && i < j < |Tick(cfg, s).toBuild|
    ensures Precedes(cfg, Tick(cfg, s).toBuild[i], Tick(cfg, s).toBuild[j])
  {
    var nb, launched := |InState(s.st, Building)|, Tick(cfg, s).toBuild;
    TickMarks(cfg, s);
    assert Added([], launched) == launched;
    PassInOrder(cfg, ByPriority(cfg), Free(cfg.buildJobs, nb), Pass(TickFetches(cfg, s).sys, nb));
    AheadPrecedes(cfg, launched[i], launched[j]);
  }

  lemma AheadPrecedes(cfg: Config, x: Name, y: Name)
    requires cfg.Valid() && NoDup(cfg.deps) && Ahead(ByPriority(cfg), x, y)
    ensures Precedes(cfg, x, y)
  {
    var a, b :| 0 <= a < b < |ByPriority(cfg)| && ByPriority(cfg)[a] == x && ByPriority(cfg)[b] == y;
    ByPriorityPrecedes(cfg, a, b);
  }

  lemma {:induction false} PassInOrder(cfg: Config, todo: seq<Name>, avail: nat, p: Pass)
    requires forall n :: n in todo ==> n in cfg.providers
    ensures InListOrder(todo, Added(p.sys.toBuild, BuildPass(cfg, todo, avail, p).sys.toBuild))
    decreases |todo|
  {
    if todo != [] && |p.sys.toBuild| < avail {
      var q := AfterLook(cfg, p, todo[0]);
      var marks := BuildPass(cfg, todo[1..], avail, q).sys.toBuild;
      BuildPassLooks(cfg, todo, avail, p);
      PassInOrder(cfg, todo[1..], avail, q);
      if BuildChoice(cfg, p, todo[0]) == Launch {
        MarksGrow(cfg, todo[1..], avail, q);
        AddedAfterOne(p.sys.toBuild, todo[0], marks);
        AddedAfterOne(p.sys.toBuild, todo[0], q.sys.toBuild);
        AddedNothing(q.sys.toBuild);
        OrderNow(todo, Added(q.sys.toBuild, marks));
        OrderNow(todo, []);
      } else {
        OrderLater(todo, Added(q.sys.toBuild, marks));
      }
    }
  }

  lemma BuildsKeepFetchMarks(cfg: Config, s: Sys)
    requires cfg.Valid()
    ensures Tick(cfg, s).toFetch == TickFetches(cfg, s).sys.toFetch
  {
    var nb := |InState(s.st, Building)|;
    var q := Pass(TickFetches(cfg, s).sys, nb);
    if !cfg.fetchOnly {
      BuildMarksOnly(cfg, ByPriority(cfg), Free(cfg.buildJobs, nb), q);
    }
  }

  lemma {:induction false} BuildMarksOnly(cfg: Config, todo: seq<Name>, avail: nat, p: Pass)
    requires forall n :: n in todo ==> n in cfg.providers
    ensures BuildPass(cfg, todo, avail, p).sys.toFetch == p.sys.toFetch
    decreases |todo|
  {
    if todo != [] && |p.sys.toBuild| < avail {
      match BuildChoice(cfg, p, todo[0]) {
        case Skip => BuildMarksOnly(cfg, todo[1..], avail, p);
        case Blame => BuildMarksOnly(cfg, todo[1..], avail, p.(sys := Report(p.sys, todo[0], BuildFailed)));
        case Launch => BuildMarksOnly(cfg, todo[1..], avail, Pass(MarkBuild(p.sys, todo[0]), p.inFlight + 1));
      }
    }
  }

  /**
   Fetches start in list order whatever the priorities: a pending ordinary dep that a tick leaves waiting
   stands behind every dep whose fetch it launched, and no fetch slot is free unless a serial fetch was launched.
   */
  lemma {:induction false} TickFetchesInOrder(cfg: Config, s: Sys, n: Name)
    requires cfg.Valid() && NoDup(cfg.deps) && n in cfg.providers
    requires Is(s.st, n, Pending) && !cfg.providers[n].serialFetch
    ensures var launched := Tick(cfg, s).toFetch;
      n !in launched ==>
        && (forall m :: m in launched ==> m in cfg.deps && Position(cfg.deps)(m) < Position(cfg.deps)(n))
        && (|InState(s.st, Fetching)| + |launched| >= cfg.fetchJobs
            || exists m :: m in launched && m in cfg.providers && cfg.providers[m].serialFetch)
  {
    var nf := |InState(s.st, Fetching)|;
    var p := Pass(s.(toFetch := [], toBuild := []), nf);
    var f := TickFetches(cfg, s);
    BuildsKeepFetchMarks(cfg, s);
    var i := IndexOf(cfg.deps, n);
    FetchPassServes(cfg, cfg.deps, Free(cfg.fetchJobs, nf), p, i);
    assert Added([], f.sys.toFetch) == f.sys.toFetch;
    forall m | n !in f.sys.toFetch && m in f.sys.toFetch ensures m in cfg.deps && Position(cfg.deps)(m) < i {
      var j :| 0 <= j < i && cfg.deps[j] == m;
      assert IndexOf(cfg.deps, m) <= j;
    }
  }

  /** A serial build starts only when no build is running, and nothing else starts in the same tick. */
  lemma SerialBuildStartsIdle(cfg: Config, s: Sys, n: Name)
    requires cfg.Valid() && s.st.Keys == cfg.providers.Keys && !cfg.fetchOnly
    requires n in Tick(cfg, s).toBuild && n in cfg.providers && cfg.providers[n].serialBuild
    ensures InState(s.st, Building) == {} && Tick(cfg, s).toBuild == [n]
  {
    var nb := |InState(s.st, Building)|;
    FetchesLeaveNoBuildMark(cfg, s);
    PassLaunches(cfg, ByPriority(cfg), Free(cfg.buildJobs, nb), Pass(TickFetches(cfg, s).sys, nb), n);
  }

  /** With a free slot and an eligible ordinary dep, a tick launches something. */
  lemma {:induction false} SomeLaunch(cfg: Config, s: Sys, n: Name)
    requires cfg.Valid() && s.st.Keys == cfg.providers.Keys && !cfg.fetchOnly
    requires Eligible(cfg, s.st, n) && !cfg.providers[n].serialBuild
    requires cfg.buildJobs > |InState(s.st, Building)|
    ensures Tick(cfg, s).toBuild != []
  {
    var order, nb := ByPriority(cfg), |InState(s.st, Building)|;
    var q := Pass(TickFetches(cfg, s).sys, nb);
    SortByKeeps(cfg.deps, PriorityKey(cfg));
    EligibleAfterFetches(cfg, s, n);
    FetchesLeaveNoBuildMark(cfg, s);
    var i :| 0 <= i < |order| && order[i] == n;
    PassServes(cfg, order, Free(cfg.buildJobs, nb), q, i);
  }

  lemma LaunchedWasEligible(cfg: Config, s: Sys, n: Name)
    requires cfg.Valid() && s.st.Keys == cfg.providers.Keys && !cfg.fetchOnly
    requires n in Tick(cfg, s).toBuild
    ensures Eligible(cfg, s.st, n) && cfg.buildJobs > |InState(s.st, Building)|
    ensures cfg.providers[n].serialBuild ==> InState(s.st, Building) == {}
  {
    var nb := |InState(s.st, Building)|;
    var q := Pass(TickFetches(cfg, s).sys, nb);
    FetchesLeaveNoBuildMark(cfg, s);
    SortByKeeps(cfg.deps, PriorityKey(cfg));
    PassLaunches(cfg, ByPriority(cfg), Free(cfg.buildJobs, nb), q, n);
    EligibleAfterFetches(cfg, s, n);
  }

  /**
   A running serial build does not keep others out: the next tick starts another build beside it exactly
   when there is a second slot and an eligible dep that is not itself serial.
   */
  lemma {:induction false} SerialBuildGetsCompany(cfg: Config, s: Sys, serial: Name)
    requires cfg.Valid() && s.st.Keys == cfg.providers.Keys && !cfg.fetchOnly
    requires InState(s.st, Building) == {serial}
    ensures Tick(cfg, s).toBuild != []
       <==> cfg.buildJobs > 1 && exists n :: Eligible(cfg, s.st, n) && !cfg.providers[n].serialBuild
  {
    var launched := Tick(cfg, s).toBuild;
    if launched != [] {
      LaunchedWasEligible(cfg, s, launched[0]);
    }
    if n :| cfg.buildJobs > 1 && Eligible(cfg, s.st, n) && !cfg.providers[n].serialBuild {
      SomeLaunch(cfg, s, n);
    }
  }

  lemma {:induction false} FetchComesFirst(cfg: Config, todo: seq<Name>, avail: nat, p: Pass)
    requires (forall m :: m in todo ==> m in cfg.providers) && todo != [] && |p.sys.toFetch| < avail
    requires !SkipsFetch(cfg, p, todo[0])
    ensures var q := MarkFetch(p.sys, todo[0]); var marks := FetchPass(cfg, todo, avail, p).sys.toFetch;
      Added(p.sys.toFetch, marks) == [todo[0]] + Added(q.toFetch, marks)
  {
    FetchMarksGrow(cfg, todo[1..], avail, Pass(MarkFetch(p.sys, todo[0]), p.inFlight + 1));
  }

  /** Whatever fetch is launched was pending, and a serial one is launched only alone and on an idle pool. */
  lemma {:induction false} FetchPassLaunches(cfg: Config, todo: seq<Name>, avail: nat, p: Pass, n: Name)
    requires forall m :: m in todo ==> m in cfg.providers
    requires n in Added(p.sys.toFetch, FetchPass(cfg, todo, avail, p).sys.toFetch)
    ensures n in todo && Is(p.sys.st, n, Pending) && |p.sys.toFetch| < avail
    ensures cfg.providers[n].serialFetch ==>
              p.inFlight == 0 && FetchPass(cfg, todo, avail, p).sys.toFetch == p.sys.toFetch + [n]
    decreases |todo|
  {
    var m := todo[0];
    var r := FetchPass(cfg, todo, avail, p);
    if SkipsFetch(cfg, p, m) {
      FetchPassLaunches(cfg, todo[1..], avail, p, n);
    } else {
      var q := Pass(MarkFetch(p.sys, m), p.inFlight + 1);
      FetchComesFirst(cfg, todo, avail, p);
      if n != m {
        assert n in Added(q.sys.toFetch, r.sys.toFetch);
        FetchPassLaunches(cfg, todo[1..], avail, q, n);
      } else if !cfg.providers[m].serialFetch {
        assert Is(p.sys.st, m, Pending);
      }
    }
  }

  lemma LaunchedWasPending(cfg: Config, s: Sys, n: Name)
    requires cfg.Valid() && n in Tick(cfg, s).toFetch
    ensures n in cfg.providers && Is(s.st, n, Pending) && cfg.fetchJobs > |InState(s.st, Fetching)|
    ensures cfg.providers[n].serialFetch ==> InState(s.st, Fetching) == {} && Tick(cfg, s).toFetch == [n]
  {
    var nf := |InState(s.st, Fetching)|;
    var p := Pass(s.(toFetch := [], toBuild := []), nf);
    BuildsKeepFetchMarks(cfg, s);
    FetchPassLaunches(cfg, cfg.deps, Free(cfg.fetchJobs, nf), p, n);
  }

  /** The same for fetches: a serial fetch starts only when no fetch is running, and alone in its tick. */
  lemma SerialFetchStartsIdle(cfg: Config, s: Sys, n: Name)
    requires cfg.Valid() && n in Tick(cfg, s).toFetch && n in cfg.providers && cfg.providers[n].serialFetch
    ensures InState(s.st, Fetching) == {} && Tick(cfg, s).toFetch == [n]
  {
    LaunchedWasPending(cfg, s, n);
  }

  /** And it does not keep others out: there must only be a second slot and a pending dep that is not itself serial. */
  lemma {:induction false} SerialFetchGetsCompany(cfg: Config, s: Sys, serial: Name)
    requires cfg.Valid() && NoDup(cfg.deps) && InState(s.st, Fetching) == {serial}
    ensures Tick(cfg, s).toFetch != []
       <==> cfg.fetchJobs > 1 && exists n :: n in cfg.providers && Is(s.st, n, Pending) && !cfg.providers[n].serialFetch
  {
    var launched := Tick(cfg, s).toFetch;
    if launched != [] {
      assert launched[0] in launched;
      LaunchedWasPending(cfg, s, launched[0]);
    }
    if n :| cfg.fetchJobs > 1 && n in cfg.providers && Is(s.st, n, Pending) && !cfg.providers[n].serialFetch {
      TickFetchesInOrder(cfg, s, n);
    }
  }

  lemma {:induction false} FetchMarksGrow(cfg: Config, todo: seq<Name>, avail: nat, p: Pass)
    requires forall n :: n in todo ==> n in cfg.providers
    ensures p.sys.toFetch <= FetchPass(cfg, todo, avail, p).sys.toFetch
    decreases |todo|
  {
    if todo != [] && |p.sys.toFetch| < avail {
      if SkipsFetch(cfg, p, todo[0]) {
        FetchMarksGrow(cfg, todo[1..], avail, p);
      } else {
        FetchMarksGrow(cfg, todo[1..], avail, Pass(MarkFetch(p.sys, todo[0]), p.inFlight + 1));
      }
    }
  }

  /** With no fetch running, the first pending dep that a pass comes to is fetched, be it serial or not. */
  lemma {:induction false} IdleFetchPassServes(cfg: Config, todo: seq<Name>, avail: nat, p: Pass, i: nat)
      returns (j: nat)
    requires (forall n :: n in todo ==> n in cfg.providers) && i < |todo| && Is(p.sys.st, todo[i], Pending)
    requires p.inFlight == 0 && |p.sys.toFetch| < avail
    ensures j <= i && todo[j] in Added(p.sys.toFetch, FetchPass(cfg, todo, avail, p).sys.toFetch)
    decreases |todo|
  {
    if SkipsFetch(cfg, p, todo[0]) {
      j := IdleFetchPassServes(cfg, todo[1..], avail, p, i - 1);
      j := j + 1;
    } else {
      FetchComesFirst(cfg, todo, avail, p);
      j := 0;
    }
  }

  lemma SomeFetchUpTo(cfg: Config, s: Sys, n: Name) returns (m: Name)
    requires cfg.Valid() && NoDup(cfg.deps) && n in cfg.deps && Is(s.st, n, Pending) && InState(s.st, Fetching) == {}
    ensures m in Tick(cfg, s).toFetch && m in cfg.deps && Position(cfg.deps)(m) <= Position(cfg.deps)(n)
  {
    var p, i := Pass(s.(toFetch := [], toBuild := []), 0), IndexOf(cfg.deps, n);
    BuildsKeepFetchMarks(cfg, s);
    var j := IdleFetchPassServes(cfg, cfg.deps, Free(cfg.fetchJobs, 0), p, i);
    assert Added([], Tick(cfg, s).toFetch) == Tick(cfg, s).toFetch;
    m := cfg.deps[j];
    assert IndexOf(cfg.deps, m) == j;
  }

  lemma SamePlace<T>(xs: seq<T>, x: T, y: T)
    requires x in xs && y in xs && Position(xs)(x) == Position(xs)(y)
    ensures x == y
  {
    assert xs[IndexOf(xs, x)] == x && xs[IndexOf(xs, y)] == y;
  }

  /** A serial fetch is not kept waiting for ever either: whichever pending dep comes first in the list is next. */
  lemma {:induction false} FirstPendingStarts(cfg: Config, s: Sys, n: Name)
    requires cfg.Valid() && NoDup(cfg.deps) && n in cfg.providers
    requires Is(s.st, n, Pending) && InState(s.st, Fetching) == {}
    requires forall m :: m in cfg.deps && Is(s.st, m, Pending) ==> Position(cfg.deps)(n) <= Position(cfg.deps)(m)
    ensures n in Tick(cfg, s).toFetch
    ensures cfg.providers[n].serialFetch ==> Tick(cfg, s).toFetch == [n]
  {
    var m := SomeFetchUpTo(cfg, s, n);
    LaunchedWasPending(cfg, s, m);
    SamePlace(cfg.deps, m, n);
    if cfg.providers[n].serialFetch {
      SerialFetchStartsIdle(cfg, s, n);
    }
  }

  lemma {:induction false} FetchPassInOrder(cfg: Config, todo: seq<Name>, avail: nat, p: Pass)
    requires forall n :: n in todo ==> n in cfg.providers
    ensures InListOrder(todo, Added(p.sys.toFetch, FetchPass(cfg, todo, avail, p).sys.toFetch))
    decreases |todo|
  {
    if todo != [] && |p.sys.toFetch| < avail {
      if SkipsFetch(cfg, p, todo[0]) {
        FetchPassInOrder(cfg, todo[1..], avail, p);
        OrderLater(todo, Added(p.sys.toFetch, FetchPass(cfg, todo[1..], avail, p).sys.toFetch));
      } else {
        var q := Pass(MarkFetch(p.sys, todo[0]), p.inFlight + 1);
        var marks := FetchPass(cfg, todo[1..], avail, q).sys.toFetch;
        FetchPassInOrder(cfg, todo[1..], avail, q);
        FetchMarksGrow(cfg, todo[1..], avail, q);
        AddedAfterOne(p.sys.toFetch, todo[0], marks);
        AddedAfterOne(p.sys.toFetch, todo[0], q.sys.toFetch);
        AddedNothing(q.sys.toFetch);
        OrderNow(todo, Added(q.sys.toFetch, marks));
        OrderNow(todo, []);
      }
    }
  }

  /** What a tick fetches it fetches in list order. */
  lemma {:induction false} FetchedInOrder(cfg: Config, s: Sys, i: nat, j: nat)
    requires cfg.Valid() && NoDup(cfg.deps) && i < j < |Tick(cfg, s).toFetch|
    ensures var launched := Tick(cfg, s).toFetch;
      && launched[i] in cfg.deps && launched[j] in cfg.deps
      && Position(cfg.deps)(launched[i]) < Position(cfg.deps)(launched[j])
  {
    var nf, launched := |InState(s.st, Fetching)|, Tick(cfg, s).toFetch;
    BuildsKeepFetchMarks(cfg, s);
    assert Added([], launched) == launched;
    FetchPassInOrder(cfg, cfg.deps, Free(cfg.fetchJobs, nf), Pass(s.(toFetch := [], toBuild := []), nf));
    AheadPosition(cfg.deps, launched[i], launched[j]);
  }

  lemma AheadPosition<T>(xs: seq<T>, x: T, y: T)
    requires NoDup(xs) && Ahead(xs, x, y)
    ensures x in xs && y in xs && Position(xs)(x) < Position(xs)(y)
  {
    var a, b :| 0 <= a < b < |xs| && xs[a] == x && xs[b] == y;
    assert IndexOf(xs, x) == a && IndexOf(xs, y) == b;
  }

  /** The pools get the work in the order in which it was marked, tick after tick. */
  lemma {:induction false} HandedOverInOrder(cfg: Config, s: Sys, e: Event)
    requires cfg.Valid() && Enabled(cfg, s, e)
    ensures var t := Apply(cfg, s, e);
      if e.TickNow? then t.fetchLog == s.fetchLog && t.buildLog == s.buildLog
      else t.fetchLog + t.toFetch == s.fetchLog + s.toFetch && t.buildLog + t.toBuild == s.buildLog + s.toBuild
  {
    match e {
      case TickNow => TickHandsOverNothing(cfg, s);
      case HandOverFetch => assert s.toFetch == [s.toFetch[0]] + s.toFetch[1..];
      case HandOverBuild => assert s.toBuild == [s.toBuild[0]] + s.toBuild[1..];
      case FetchFinished(n) =>
      case BuildFinished(n) =>
    }
  }

  lemma {:induction false} TickHandsOverNothing(cfg: Config, s: Sys)
    requires cfg.Valid()
    ensures Tick(cfg, s).fetchLog == s.fetchLog && Tick(cfg, s).buildLog == s.buildLog
  {
    var p := Pass(s.(toFetch := [], toBuild := []), |InState(s.st, Fetching)|);
    FetchPassEffect(cfg, cfg.deps, Free(cfg.fetchJobs, p.inFlight), p);
    if !cfg.fetchOnly {
      var nb := |InState(s.st, Building)|;
      BuildPassLogs(cfg, ByPriority(cfg), Free(cfg.buildJobs, nb), Pass(TickFetches(cfg, s).sys, nb));
    }
  }

  lemma {:induction false} BuildPassLogs(cfg: Config, todo: seq<Name>, avail: nat, p: Pass)
    requires forall n :: n in todo ==> n in cfg.providers
    ensures var r := BuildPass(cfg, todo, avail, p);
      r.sys.fetchLog == p.sys.fetchLog && r.sys.buildLog == p.sys.buildLog
    decreases |todo|
  {
    if todo != [] && |p.sys.toBuild| < avail {
      BuildPassLooks(cfg, todo, avail, p);
      if !StopsAfter(cfg, p, todo[0]) {
        BuildPassLogs(cfg, todo[1..], avail, AfterLook(cfg, p, todo[0]));
      }
    }
  }

  /** Over a whole run: whatever has been marked is handed over in that order, and nothing else is. */
  lemma {:induction false} WorkIsHandedOverInOrder(cfg: Config, s: Sys, events: seq<Event>)
    requires cfg.Valid() && Allowed(cfg, s, events)
    ensures var t := Exec(cfg, s, events);
      s.fetchLog + s.toFetch <= t.fetchLog + t.toFetch && s.buildLog + s.toBuild <= t.buildLog + t.toBuild
    decreases |events|
  {
    if events != [] {
      HandedOverInOrder(cfg, s, events[0]);
      WorkIsHandedOverInOrder(cfg, Apply(cfg, s, events[0]), events[1..]);
    }
  }
}
