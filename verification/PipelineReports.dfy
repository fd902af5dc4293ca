/** What is reported, and in what order: failures that cascade within a tick, and completions over whole runs. */
module PipelineReports {
  import opened Basics
  import opened StableSort
  import opened PipelineModel
  import opened PipelineInvariant
  import opened PipelineDispatch

  /** Among the new entries the dep is given up on. */
  predicate GivenUp(before: seq<Entry>, after: seq<Entry>, n: Name) {
    Entry(n, BuildFailed) in Added(before, after)
  }

  // ---- one pass of the build dispatch ----

  lemma {:induction false} PassHistoryGrows(cfg: Config, todo: seq<Name>, avail: nat, p: Pass)
    requires forall n :: n in todo ==> n in cfg.providers
    ensures p.sys.history <= BuildPass(cfg, todo, avail, p).sys.history
    decreases |todo|
  {
    if todo != [] && |p.sys.toBuild| < avail {
      match BuildChoice(cfg, p, todo[0]) {
        case Skip => PassHistoryGrows(cfg, todo[1..], avail, p);
        case Blame => PassHistoryGrows(cfg, todo[1..], avail, p.(sys := Report(p.sys, todo[0], BuildFailed)));
        case Launch => PassHistoryGrows(cfg, todo[1..], avail, Pass(MarkBuild(p.sys, todo[0]), p.inFlight + 1));
      }
    }
  }

  /** Why the dep reported at place k may be given up on: a prereq had failed before, or was given up on earlier. */
  ghost predicate Excused(cfg: Config, st: map<Name, State>, news: seq<Entry>, k: nat)
    requires k < |news|
  {
    var n := news[k].name;
    && news[k].state == BuildFailed && Is(st, n, SourceReady) && n !in cfg.fetchOnlySet
    && exists m :: cfg.Needs(n, m)
         && (Is(st, m, FetchFailed) || Is(st, m, BuildFailed) || exists j :: 0 <= j < k && news[j].name == m)
  }

  ghost predicate AllExcused(cfg: Config, st: map<Name, State>, news: seq<Entry>) {
    forall k :: 0 <= k < |news| ==> Excused(cfg, st, news, k)
  }

  lemma ExcusedAfterOne(cfg: Config, st: map<Name, State>, n: Name, news: seq<Entry>)
    requires Is(st, n, SourceReady) && n !in cfg.fetchOnlySet && AnyPrereqFailed(cfg, st, n)
    requires AllExcused(cfg, st[n := BuildFailed], news)
    ensures AllExcused(cfg, st, [Entry(n, BuildFailed)] + news)
  {
    var more := [Entry(n, BuildFailed)] + news;
    forall k | 0 <= k < |more| ensures Excused(cfg, st, more, k) {
      if k > 0 {
        var x := news[k - 1].name;
        assert Excused(cfg, st[n := BuildFailed], news, k - 1) && more[k] == news[k - 1];
        var m :| cfg.Needs(x, m)
          && (Is(st[n := BuildFailed], m, FetchFailed) || Is(st[n := BuildFailed], m, BuildFailed)
              || exists j :: 0 <= j < k - 1 && news[j].name == m);
        if j :| 0 <= j < k - 1 && news[j].name == m {
          assert more[j + 1].name == m;
        } else {
          assert m == n ==> more[0].name == m;
        }
      }
    }
  }

  lemma ExcusedBeforeLaunch(cfg: Config, st: map<Name, State>, n: Name, news: seq<Entry>)
    requires AllExcused(cfg, st[n := Building], news)
    ensures AllExcused(cfg, st, news)
  {
    forall k | 0 <= k < |news| ensures Excused(cfg, st, news, k) {
      assert Excused(cfg, st[n := Building], news, k);
      var x := news[k].name;
      var m :| cfg.Needs(x, m) && (Is(st[n := Building], m, FetchFailed) || Is(st[n := Building], m, BuildFailed)
        || exists j :: 0 <= j < k && news[j].name == m);
      assert Is(st[n := Building], m, FetchFailed) ==> Is(st, m, FetchFailed);
    }
  }

  /** A pass gives up on nobody without a reason. */
  lemma {:induction false} PassExcuses(cfg: Config, todo: seq<Name>, avail: nat, p: Pass)
    requires forall n :: n in todo ==> n in cfg.providers
    ensures AllExcused(cfg, p.sys.st, Added(p.sys.history, BuildPass(cfg, todo, avail, p).sys.history))
    decreases |todo|
  {
    if todo != [] && |p.sys.toBuild| < avail {
      var n, after := todo[0], BuildPass(cfg, todo, avail, p).sys.history;
      match BuildChoice(cfg, p, n) {
        case Skip =>
          PassExcuses(cfg, todo[1..], avail, p);
        case Blame =>
          var q := p.(sys := Report(p.sys, n, BuildFailed));
          PassExcuses(cfg, todo[1..], avail, q);
          PassHistoryGrows(cfg, todo[1..], avail, q);
          AddedAfterOne(p.sys.history, Entry(n, BuildFailed), after);
          ExcusedAfterOne(cfg, p.sys.st, n, Added(q.sys.history, after));
        case Launch =>
          var q := Pass(MarkBuild(p.sys, n), p.inFlight + 1);
          PassExcuses(cfg, todo[1..], avail, q);
          ExcusedBeforeLaunch(cfg, p.sys.st, n, Added(q.sys.history, after));
      }
    }
  }

  function Names(entries: seq<Entry>): seq<Name> {
    seq(|entries|, i requires 0 <= i < |entries| => entries[i].name)
  }

  lemma {:induction false} PassReportsInOrder(cfg: Config, todo: seq<Name>, avail: nat, p: Pass)
    requires forall n :: n in todo ==> n in cfg.providers
    ensures InListOrder(todo, Names(Added(p.sys.history, BuildPass(cfg, todo, avail, p).sys.history)))
    decreases |todo|
  {
    if todo != [] && |p.sys.toBuild| < avail {
      var n, q := todo[0], AfterLook(cfg, p, todo[0]);
      var rest := BuildPass(cfg, todo[1..], avail, q).sys.history;
      BuildPassLooks(cfg, todo, avail, p);
      PassReportsInOrder(cfg, todo[1..], avail, q);
      if BuildChoice(cfg, p, n) == Blame {
        PassHistoryGrows(cfg, todo[1..], avail, q);
        AddedAfterOne(p.sys.history, Entry(n, BuildFailed), rest);
        assert Names(Added(p.sys.history, rest)) == [n] + Names(Added(q.sys.history, rest));
        OrderNow(todo, Names(Added(q.sys.history, rest)));
      } else {
        OrderLater(todo, Names(Added(q.sys.history, rest)));
      }
    }
  }

  /** The states a pass makes BuildFailed are those it reports. */
  lemma {:induction false} PassFailsWhatItReports(cfg: Config, todo: seq<Name>, avail: nat, p: Pass, n: Name)
    requires forall m :: m in todo ==> m in cfg.providers
    ensures var r := BuildPass(cfg, todo, avail, p);
      Is(r.sys.st, n, BuildFailed) <==> Is(p.sys.st, n, BuildFailed) || GivenUp(p.sys.history, r.sys.history, n)
    decreases |todo|
  {
    if todo != [] && |p.sys.toBuild| < avail {
      var m, after := todo[0], BuildPass(cfg, todo, avail, p).sys.history;
      match BuildChoice(cfg, p, m) {
        case Skip =>
          PassFailsWhatItReports(cfg, todo[1..], avail, p, n);
        case Blame =>
          var q := p.(sys := Report(p.sys, m, BuildFailed));
          PassFailsWhatItReports(cfg, todo[1..], avail, q, n);
          PassHistoryGrows(cfg, todo[1..], avail, q);
          AddedAfterOne(p.sys.history, Entry(m, BuildFailed), after);
        case Launch =>
          PassFailsWhatItReports(cfg, todo[1..], avail, Pass(MarkBuild(p.sys, m), p.inFlight + 1), n);
      }
    }
  }

  /** The pass ends before it comes to the i-th dep: no slot is left, or a serial dep was launched. */
  ghost predicate EndsBefore(todo: seq<Name>, i: nat, avail: nat, serial: set<Name>, before: seq<Name>,
      marks: seq<Name>)
    requires i < |todo|
  {
    var added := Added(before, marks);
    (|marks| >= avail || exists m :: m in added && m in serial) && forall m :: m in added ==> m in todo[..i]
  }

  lemma EndsLater(todo: seq<Name>, i: nat, avail: nat, serial: set<Name>, before: seq<Name>, marks: seq<Name>)
    requires 0 < i < |todo| && EndsBefore(todo[1..], i - 1, avail, serial, before, marks)
    ensures EndsBefore(todo, i, avail, serial, before, marks)
  {
    assert todo[1..][..i - 1] == todo[1..i];
  }

  lemma EndsAfter(todo: seq<Name>, i: nat, avail: nat, serial: set<Name>, before: seq<Name>, marks: seq<Name>)
    requires 0 < i < |todo| && before + [todo[0]] <= marks
    requires EndsBefore(todo[1..], i - 1, avail, serial, before + [todo[0]], marks)
    ensures EndsBefore(todo, i, avail, serial, before, marks)
  {
    assert todo[1..][..i - 1] == todo[1..i] && todo[..i] == [todo[0]] + todo[1..i];
    assert Added(before, marks) == [todo[0]] + Added(before + [todo[0]], marks);
  }

  lemma EndsNow(todo: seq<Name>, i: nat, avail: nat, serial: set<Name>, before: seq<Name>)
    requires 0 < i < |todo| && todo[0] in serial
    ensures EndsBefore(todo, i, avail, serial, before, before + [todo[0]])
  {
    assert Added(before, before + [todo[0]]) == [todo[0]];
    assert todo[0] in Added(before, before + [todo[0]]);
  }

  /** The i-th dep is given up on, unless the pass ends before it comes to it. */
  ghost predicate Treated(cfg: Config, todo: seq<Name>, i: nat, avail: nat, p: Pass, r: Pass)
    requires i < |todo|
  {
    || GivenUp(p.sys.history, r.sys.history, todo[i])
    || EndsBefore(todo, i, avail, SerialBuilds(cfg), p.sys.toBuild, r.sys.toBuild)
  }

  lemma TreatedLater(cfg: Config, todo: seq<Name>, i: nat, avail: nat, p: Pass)
    requires (forall n :: n in todo ==> n in cfg.providers) && 0 < i < |todo|
    requires var q := AfterLook(cfg, p, todo[0]);
      Treated(cfg, todo[1..], i - 1, avail, q, BuildPass(cfg, todo[1..], avail, q))
    ensures Treated(cfg, todo, i, avail, p, BuildPass(cfg, todo[1..], avail, AfterLook(cfg, p, todo[0])))
  {
    var q, serial := AfterLook(cfg, p, todo[0]), SerialBuilds(cfg);
    var r := BuildPass(cfg, todo[1..], avail, q);
    PassHistoryGrows(cfg, todo[1..], avail, q);
    MarksGrow(cfg, todo[1..], avail, q);
    var choice := BuildChoice(cfg, p, todo[0]);
    if choice == Blame {
      AddedAfterOne(p.sys.history, Entry(todo[0], BuildFailed), r.sys.history);
    }
    if !GivenUp(p.sys.history, r.sys.history, todo[i]) {
      if choice == Launch {
        EndsAfter(todo, i, avail, serial, p.sys.toBuild, r.sys.toBuild);
      } else {
        EndsLater(todo, i, avail, serial, p.sys.toBuild, r.sys.toBuild);
      }
    }
  }

  /** A look at another dep leaves a failed one and a waiting one as they are. */
  lemma LookLeaves(cfg: Config, p: Pass, n: Name, x: Name)
    requires n in cfg.providers
    ensures var st := AfterLook(cfg, p, n).sys.st;
      && (Is(p.sys.st, x, FetchFailed) ==> Is(st, x, FetchFailed))
      && (Is(p.sys.st, x, BuildFailed) ==> Is(st, x, BuildFailed))
      && (n != x && Is(p.sys.st, x, SourceReady) ==> Is(st, x, SourceReady))
  {
  }

  lemma {:induction false} FirstGivenUp(cfg: Config, todo: seq<Name>, avail: nat, p: Pass)
    requires (forall n :: n in todo ==> n in cfg.providers) && todo != [] && |p.sys.toBuild| < avail
    ensures BuildChoice(cfg, p, todo[0]) == Blame
        ==> GivenUp(p.sys.history, BuildPass(cfg, todo, avail, p).sys.history, todo[0])
  {
    if BuildChoice(cfg, p, todo[0]) == Blame {
      var q := AfterLook(cfg, p, todo[0]);
      PassHistoryGrows(cfg, todo[1..], avail, q);
      AddedAfterOne(p.sys.history, Entry(todo[0], BuildFailed), BuildPass(cfg, todo[1..], avail, q).sys.history);
    }
  }

  lemma StopEnds(cfg: Config, todo: seq<Name>, i: nat, avail: nat, p: Pass)
    requires (forall n :: n in todo ==> n in cfg.providers) && 0 < i < |todo| && StopsAfter(cfg, p, todo[0])
    ensures Treated(cfg, todo, i, avail, p, AfterLook(cfg, p, todo[0]))
  {
    EndsNow(todo, i, avail, SerialBuilds(cfg), p.sys.toBuild);
  }

  /** A waiting dep with a failed prereq is given up on, if the pass comes to it. */
  lemma {:induction false} PassGivesUp(cfg: Config, todo: seq<Name>, avail: nat, p: Pass, i: nat, m: Name)
    requires forall n :: n in todo ==> n in cfg.providers
    requires i < |todo| && Is(p.sys.st, todo[i], SourceReady) && todo[i] !in cfg.fetchOnlySet
    requires cfg.Needs(todo[i], m) && (Is(p.sys.st, m, FetchFailed) || Is(p.sys.st, m, BuildFailed))
    ensures Treated(cfg, todo, i, avail, p, BuildPass(cfg, todo, avail, p))
    decreases |todo|
  {
    if |p.sys.toBuild| >= avail {
      assert Added(p.sys.toBuild, p.sys.toBuild) == [];
    } else if todo[0] == todo[i] {
      assert !PrereqsDone(cfg, p.sys.st, todo[0]) && AnyPrereqFailed(cfg, p.sys.st, todo[0]);
      FirstGivenUp(cfg, todo, avail, p);
    } else {
      BuildPassLooks(cfg, todo, avail, p);
      if StopsAfter(cfg, p, todo[0]) {
        StopEnds(cfg, todo, i, avail, p);
      } else {
        LookLeaves(cfg, p, todo[0], m);
        LookLeaves(cfg, p, todo[0], todo[i]);
        PassGivesUp(cfg, todo[1..], avail, AfterLook(cfg, p, todo[0]), i - 1, m);
        TreatedLater(cfg, todo, i, avail, p);
      }
    }
  }

  lemma NamesInList(todo: seq<Name>, news: seq<Entry>, e: Entry)
    requires InListOrder(todo, Names(news)) && e in news
    ensures e.name in todo
  {
    var k :| 0 <= k < |news| && news[k] == e;
    assert Names(news)[k] == e.name;
  }

  /** Whom a pass reports after a look at the first dep it reports at all. */
  lemma {:induction false} ReportedFirstOrLater(cfg: Config, todo: seq<Name>, avail: nat, p: Pass, a: nat)
    requires (forall n :: n in todo ==> n in cfg.providers) && NoDup(todo) && a < |todo|
    requires GivenUp(p.sys.history, BuildPass(cfg, todo, avail, p).sys.history, todo[a])
    ensures |p.sys.toBuild| < avail && !StopsAfter(cfg, p, todo[0])
    ensures a == 0 ==> BuildChoice(cfg, p, todo[0]) == Blame
    ensures a > 0 ==> var q := AfterLook(cfg, p, todo[0]);
      GivenUp(q.sys.history, BuildPass(cfg, todo[1..], avail, q).sys.history, todo[a])
  {
    var q := AfterLook(cfg, p, todo[0]);
    var r := BuildPass(cfg, todo[1..], avail, q);
    AddedNothing(p.sys.history);
    BuildPassLooks(cfg, todo, avail, p);
    PassReportsInOrder(cfg, todo[1..], avail, q);
    if Entry(todo[0], BuildFailed) in Added(q.sys.history, r.sys.history) {
      NamesInList(todo[1..], Added(q.sys.history, r.sys.history), Entry(todo[0], BuildFailed));
    }
    if BuildChoice(cfg, p, todo[0]) == Blame {
      PassHistoryGrows(cfg, todo[1..], avail, q);
      AddedAfterOne(p.sys.history, Entry(todo[0], BuildFailed), r.sys.history);
    }
  }

  /** A dep given up on in this very pass counts as failed for those that stand behind it. */
  lemma {:induction false} PassCascades(cfg: Config, todo: seq<Name>, avail: nat, p: Pass, a: nat, i: nat)
    requires (forall n :: n in todo ==> n in cfg.providers) && NoDup(todo) && a < i < |todo|
    requires Is(p.sys.st, todo[i], SourceReady) && todo[i] !in cfg.fetchOnlySet && cfg.Needs(todo[i], todo[a])
    requires GivenUp(p.sys.history, BuildPass(cfg, todo, avail, p).sys.history, todo[a])
    ensures Treated(cfg, todo, i, avail, p, BuildPass(cfg, todo, avail, p))
    decreases |todo|
  {
    var q := AfterLook(cfg, p, todo[0]);
    ReportedFirstOrLater(cfg, todo, avail, p, a);
    LookLeaves(cfg, p, todo[0], todo[i]);
    if a == 0 {
      PassGivesUp(cfg, todo[1..], avail, q, i - 1, todo[0]);
    } else {
      PassCascades(cfg, todo[1..], avail, q, a - 1, i - 1);
    }
    BuildPassLooks(cfg, todo, avail, p);
    TreatedLater(cfg, todo, i, avail, p);
  }

  // ---- one tick ----

  /** The fetch dispatch reports nothing, and leaves all states but the pending ones. */
  lemma FetchesReportNothing(cfg: Config, s: Sys)
    requires cfg.Valid()
    ensures var t := TickFetches(cfg, s).sys;
      && t.history == s.history && t.recent == s.recent && t.returned == s.returned
      && t.fetchLog == s.fetchLog && t.buildLog == s.buildLog
    ensures forall n, x :: x != Pending && x != Fetching ==> (Is(TickFetches(cfg, s).sys.st, n, x) <==> Is(s.st, n, x))
  {
    var p := Pass(s.(toFetch := [], toBuild := []), |InState(s.st, Fetching)|);
    FetchPassEffect(cfg, cfg.deps, Free(cfg.fetchJobs, p.inFlight), p);
    FetchPassOnlyFetches(cfg, cfg.deps, Free(cfg.fetchJobs, p.inFlight), p);
  }

  lemma ExcusedAlike(cfg: Config, st: map<Name, State>, after: map<Name, State>, news: seq<Entry>)
    requires AllExcused(cfg, after, news)
    requires forall n, x :: x != Pending && x != Fetching ==> (Is(after, n, x) <==> Is(st, n, x))
    ensures AllExcused(cfg, st, news)
  {
    forall k | 0 <= k < |news| ensures Excused(cfg, st, news, k) {
      assert Excused(cfg, after, news, k);
      var x := news[k].name;
      var m :| cfg.Needs(x, m)
        && (Is(after, m, FetchFailed) || Is(after, m, BuildFailed) || exists j :: 0 <= j < k && news[j].name == m);
      assert Is(after, m, FetchFailed) ==> Is(st, m, FetchFailed);
    }
  }

  /** A sweep is no part of the history. */
  lemma TickHistory(cfg: Config, s: Sys)
    requires cfg.Valid()
    ensures Tick(cfg, s).history == TickBuilds(cfg, s).sys.history
  {
  }

  /**
   Whom a tick gives up on, it gives up on in dispatch order and with a reason: the dep is fetched and to be built, and
   one of its prereqs had failed before the tick or is given up on earlier in it.
   */
  lemma {:induction false} GivenUpForAReason(cfg: Config, s: Sys)
    requires cfg.Valid()
    ensures var after := Tick(cfg, s).history;
      && s.history <= after && AllExcused(cfg, s.st, Added(s.history, after))
      && (cfg.fetchOnly ==> after == s.history)
      && (NoDup(cfg.deps) ==> forall j, k :: 0 <= j < k < |Added(s.history, after)| ==>
            Precedes(cfg, Added(s.history, after)[j].name, Added(s.history, after)[k].name))
  {
    FetchesReportNothing(cfg, s);
    TickHistory(cfg, s);
    if !cfg.fetchOnly {
      var nb := |InState(s.st, Building)|;
      var p, order, avail := Pass(TickFetches(cfg, s).sys, nb), ByPriority(cfg), Free(cfg.buildJobs, nb);
      var news := Added(s.history, Tick(cfg, s).history);
      PassHistoryGrows(cfg, order, avail, p);
      PassExcuses(cfg, order, avail, p);
      ExcusedAlike(cfg, s.st, p.sys.st, news);
      PassReportsInOrder(cfg, order, avail, p);
      if NoDup(cfg.deps) {
        forall j, k | 0 <= j < k < |news| ensures Precedes(cfg, news[j].name, news[k].name) {
          assert Ahead(order, Names(news)[j], Names(news)[k]);
          AheadPrecedes(cfg, news[j].name, news[k].name);
        }
      }
    }
  }

  /** The build slots are all taken, or a serial dep was launched; and all that was launched comes before n. */
  ghost predicate NoTurn(cfg: Config, s: Sys, n: Name)
    requires cfg.Valid()
  {
    var launched := Tick(cfg, s).toBuild;
    && (|InState(s.st, Building)| + |launched| >= cfg.buildJobs
        || exists m :: m in launched && m in cfg.providers && cfg.providers[m].serialBuild)
    && (NoDup(cfg.deps) ==> forall m :: m in launched ==> Precedes(cfg, m, n))
  }

  lemma ByPriorityDistinct(cfg: Config)
    requires cfg.Valid() && NoDup(cfg.deps)
    ensures NoDup(ByPriority(cfg))
  {
    forall a, b | 0 <= a < b < |ByPriority(cfg)| ensures ByPriority(cfg)[a] != ByPriority(cfg)[b] {
      ByPriorityPrecedes(cfg, a, b);
    }
  }

  lemma EndMeansNoTurn(cfg: Config, s: Sys, i: nat)
    requires cfg.Valid() && i < |ByPriority(cfg)|
    requires EndsBefore(ByPriority(cfg), i, Free(cfg.buildJobs, |InState(s.st, Building)|), SerialBuilds(cfg),
               TickFetches(cfg, s).sys.toBuild, TickBuilds(cfg, s).sys.toBuild)
    ensures NoTurn(cfg, s, ByPriority(cfg)[i])
  {
    var order, launched := ByPriority(cfg), Tick(cfg, s).toBuild;
    TickMarks(cfg, s);
    assert Added([], launched) == launched;
    forall m | NoDup(cfg.deps) && m in launched ensures Precedes(cfg, m, order[i]) {
      var j :| 0 <= j < i && order[j] == m;
      ByPriorityPrecedes(cfg, j, i);
    }
  }

  /** The place of a dep in the dispatch order. */
  lemma PlaceInOrder(cfg: Config, n: Name) returns (i: nat)
    requires cfg.Valid() && n in cfg.providers
    ensures i < |ByPriority(cfg)| && ByPriority(cfg)[i] == n
  {
    SortByKeeps(cfg.deps, PriorityKey(cfg));
    i :| 0 <= i < |ByPriority(cfg)| && ByPriority(cfg)[i] == n;
  }

  lemma {:induction false} FailedBefore(cfg: Config, s: Sys, n: Name, m: Name)
    requires cfg.Valid() && !cfg.fetchOnly
    requires Is(s.st, n, SourceReady) && n !in cfg.fetchOnlySet && cfg.Needs(n, m)
    requires Is(s.st, m, FetchFailed) || Is(s.st, m, BuildFailed)
    ensures GivenUp(s.history, Tick(cfg, s).history, n) || NoTurn(cfg, s, n)
  {
    var nb := |InState(s.st, Building)|;
    var p, order, avail := Pass(TickFetches(cfg, s).sys, nb), ByPriority(cfg), Free(cfg.buildJobs, nb);
    var i := PlaceInOrder(cfg, n);
    FetchesReportNothing(cfg, s);
    TickHistory(cfg, s);
    PassGivesUp(cfg, order, avail, p, i, m);
    if !GivenUp(s.history, Tick(cfg, s).history, n) {
      EndMeansNoTurn(cfg, s, i);
    }
  }

  lemma PrecedesPlaces(cfg: Config, a: nat, b: nat)
    requires cfg.Valid() && NoDup(cfg.deps) && a < |ByPriority(cfg)| && b < |ByPriority(cfg)|
    requires Precedes(cfg, ByPriority(cfg)[a], ByPriority(cfg)[b])
    ensures a < b
  {
    if b < a {
      ByPriorityPrecedes(cfg, b, a);
    }
  }

  lemma {:induction false} FailedInThisTick(cfg: Config, s: Sys, n: Name, m: Name)
    requires cfg.Valid() && NoDup(cfg.deps) && !cfg.fetchOnly
    requires Is(s.st, n, SourceReady) && n !in cfg.fetchOnlySet && cfg.Needs(n, m)
    requires GivenUp(s.history, Tick(cfg, s).history, m) && Precedes(cfg, m, n)
    ensures GivenUp(s.history, Tick(cfg, s).history, n) || NoTurn(cfg, s, n)
  {
    var nb := |InState(s.st, Building)|;
    var p, order, avail := Pass(TickFetches(cfg, s).sys, nb), ByPriority(cfg), Free(cfg.buildJobs, nb);
    var a := PlaceInOrder(cfg, m);
    var i := PlaceInOrder(cfg, n);
    ByPriorityDistinct(cfg);
    PrecedesPlaces(cfg, a, i);
    FetchesReportNothing(cfg, s);
    TickHistory(cfg, s);
    PassCascades(cfg, order, avail, p, a, i);
    if !GivenUp(s.history, Tick(cfg, s).history, n) {
      EndMeansNoTurn(cfg, s, i);
    }
  }

  /** The dep waits to be built and has a prereq that failed, before the tick or earlier in it. */
  ghost predicate Blocked(cfg: Config, s: Sys, n: Name)
    requires cfg.Valid()
  {
    && Is(s.st, n, SourceReady) && n !in cfg.fetchOnlySet
    && exists m :: cfg.Needs(n, m)
         && (Is(s.st, m, FetchFailed) || Is(s.st, m, BuildFailed)
             || (GivenUp(s.history, Tick(cfg, s).history, m) && Precedes(cfg, m, n)))
  }

  lemma TheReason(cfg: Config, st: map<Name, State>, news: seq<Entry>, k: nat) returns (m: Name)
    requires k < |news| && AllExcused(cfg, st, news)
    ensures cfg.Needs(news[k].name, m)
    ensures Is(st, m, FetchFailed) || Is(st, m, BuildFailed)
         || exists j :: 0 <= j < k && news[j] == Entry(m, BuildFailed)
  {
    assert Excused(cfg, st, news, k);
    m :| cfg.Needs(news[k].name, m)
      && (Is(st, m, FetchFailed) || Is(st, m, BuildFailed) || exists j :: 0 <= j < k && news[j].name == m);
    if j :| 0 <= j < k && news[j].name == m {
      assert Excused(cfg, st, news, j) && news[j] == Entry(m, BuildFailed);
    }
  }

  lemma {:induction false} GivenUpIsBlocked(cfg: Config, s: Sys, n: Name)
    requires cfg.Valid() && NoDup(cfg.deps) && GivenUp(s.history, Tick(cfg, s).history, n)
    ensures Blocked(cfg, s, n)
  {
    var news := Added(s.history, Tick(cfg, s).history);
    GivenUpForAReason(cfg, s);
    var k :| 0 <= k < |news| && news[k] == Entry(n, BuildFailed);
    assert Excused(cfg, s.st, news, k);
    var m := TheReason(cfg, s.st, news, k);
  }

  /**
   A failure cascades at once: a tick gives up on exactly the blocked deps whose turn comes, also while other builds
   are running.
   */
  lemma {:induction false} TickGivesUpOnBlocked(cfg: Config, s: Sys, n: Name)
    requires cfg.Valid() && NoDup(cfg.deps) && !cfg.fetchOnly
    ensures GivenUp(s.history, Tick(cfg, s).history, n) ==> Blocked(cfg, s, n)
    ensures Blocked(cfg, s, n) ==> GivenUp(s.history, Tick(cfg, s).history, n) || NoTurn(cfg, s, n)
  {
    if GivenUp(s.history, Tick(cfg, s).history, n) {
      GivenUpIsBlocked(cfg, s, n);
    } else if Blocked(cfg, s, n) {
      var m :| cfg.Needs(n, m)
        && (Is(s.st, m, FetchFailed) || Is(s.st, m, BuildFailed)
            || (GivenUp(s.history, Tick(cfg, s).history, m) && Precedes(cfg, m, n)));
      if Is(s.st, m, FetchFailed) || Is(s.st, m, BuildFailed) {
        FailedBefore(cfg, s, n, m);
      } else {
        FailedInThisTick(cfg, s, n, m);
      }
    }
  }

  /**
   With a slot to spare and no serial dep launched, whoever has a failed prereq when a tick starts is BuildFailed and
   reported when it ends.
   */
  lemma {:induction false} BlockedFailsAtOnce(cfg: Config, s: Sys, n: Name, m: Name)
    requires cfg.Valid() && !cfg.fetchOnly && s.st.Keys == cfg.providers.Keys
    requires Is(s.st, n, SourceReady) && n !in cfg.fetchOnlySet && cfg.Needs(n, m)
    requires Is(s.st, m, FetchFailed) || Is(s.st, m, BuildFailed)
    requires |InState(s.st, Building)| + |Tick(cfg, s).toBuild| < cfg.buildJobs
    requires forall k :: k in Tick(cfg, s).toBuild && k in cfg.providers ==> !cfg.providers[k].serialBuild
    ensures Is(Tick(cfg, s).st, n, BuildFailed) && Entry(n, BuildFailed) in Added(s.history, Tick(cfg, s).history)
  {
    FailedBefore(cfg, s, n, m);
    TickFails(cfg, s, n);
  }

  /** Who becomes BuildFailed in a tick unreported is swept up: nothing is in flight, and the loop returns. */
  lemma {:induction false} TickFails(cfg: Config, s: Sys, n: Name)
    requires cfg.Valid() && s.st.Keys == cfg.providers.Keys
    ensures var t := Tick(cfg, s);
      && (Is(s.st, n, BuildFailed) || GivenUp(s.history, t.history, n) ==> Is(t.st, n, BuildFailed))
      && (Is(t.st, n, BuildFailed) && !Is(s.st, n, BuildFailed) && !GivenUp(s.history, t.history, n) ==>
            && t.returned && t.toFetch == [] && t.toBuild == []
            && InState(s.st, Fetching) == {} && InState(s.st, Building) == {})
  {
    var nb := |InState(s.st, Building)|;
    var p := Pass(TickFetches(cfg, s).sys, nb);
    FetchesReportNothing(cfg, s);
    TickHistory(cfg, s);
    if !cfg.fetchOnly {
      PassFailsWhatItReports(cfg, ByPriority(cfg), Free(cfg.buildJobs, nb), p, n);
    }
    StaysInFlight(cfg, s);
  }

  /** What is in flight before a tick is so after its dispatch. */
  lemma StaysInFlight(cfg: Config, s: Sys)
    requires cfg.Valid() && s.st.Keys == cfg.providers.Keys
    ensures TickFetches(cfg, s).inFlight >= |InState(s.st, Fetching)|
    ensures TickBuilds(cfg, s).inFlight >= |InState(s.st, Building)|
  {
    var nf, nb := |InState(s.st, Fetching)|, |InState(s.st, Building)|;
    var p := Pass(s.(toFetch := [], toBuild := []), nf);
    FetchPassEffect(cfg, cfg.deps, Free(cfg.fetchJobs, nf), p);
    FetchPassBuilding(cfg, cfg.deps, Free(cfg.fetchJobs, nf), p);
    if !cfg.fetchOnly {
      BuildPassEffect(cfg, ByPriority(cfg), Free(cfg.buildJobs, nb), Pass(TickFetches(cfg, s).sys, nb));
    }
  }

  // ---- whole runs ----

  /** What an event of a worker or of a hand-over adds to the history. */
  lemma EventReports(cfg: Config, s: Sys, e: Event)
    requires cfg.Valid() && Enabled(cfg, s, e) && !e.TickNow?
    ensures var t := Apply(cfg, s, e);
      match e
      case BuildFinished(n) =>
        t.history == s.history + [Entry(n, if cfg.providers[n].buildOk then Done else BuildFailed)]
      case FetchFinished(n) =>
        if !cfg.providers[n].fetchOk then t.history == s.history + [Entry(n, FetchFailed)]
        else if n in cfg.fetchOnlySet then t.history == s.history + [Entry(n, SourceReady)]
        else t.history == s.history
      case _ => t.history == s.history
  {
  }

  lemma EventKeepsHistory(cfg: Config, s: Sys, e: Event)
    requires cfg.Valid() && Enabled(cfg, s, e)
    ensures s.history <= Apply(cfg, s, e).history
  {
    if e.TickNow? {
      GivenUpForAReason(cfg, s);
    } else {
      EventReports(cfg, s, e);
    }
  }

  /** The history is in order of completion: it only grows at its end. */
  lemma {:induction false} HistoryGrows(cfg: Config, s: Sys, events: seq<Event>)
    requires cfg.Valid() && Allowed(cfg, s, events)
    ensures s.history <= Exec(cfg, s, events).history
    decreases |events|
  {
    if events != [] {
      EventKeepsHistory(cfg, s, events[0]);
      HistoryGrows(cfg, Apply(cfg, s, events[0]), events[1..]);
    }
  }

  /** The panel shows the last twenty completions, oldest first, and the one that just came is the last of them. */
  ghost predicate PanelShows(cfg: Config, t: Sys, e: Event) {
    && t.recent == t.history[if |t.history| > 20 then |t.history| - 20 else 0..]
    && (e.BuildFinished? && e.name in cfg.providers ==>
          t.recent != []
          && t.recent[|t.recent| - 1] == Entry(e.name, if cfg.providers[e.name].buildOk then Done else BuildFailed))
    && (e.FetchFinished? && e.name in cfg.providers && !cfg.providers[e.name].fetchOk ==>
          t.recent != [] && t.recent[|t.recent| - 1] == Entry(e.name, FetchFailed))
  }

  lemma PanelFollows(cfg: Config, s: Sys, e: Event)
    requires cfg.Valid() && Enabled(cfg, s, e) && ReportOnce(cfg, Apply(cfg, s, e))
    ensures PanelShows(cfg, Apply(cfg, s, e), e)
  {
    if !e.TickNow? {
      EventReports(cfg, s, e);
    }
  }

  /**
   At every point of every run the panel shows the last twenty completions; a completion that comes is the last one
   then, and keeps its place in the history ever after.
   */
  lemma CompletionsInOrder(cfg: Config, init: map<Name, State>, before: seq<Event>, e: Event, after: seq<Event>)
    requires cfg.Valid() && Initial(cfg, init) && Allowed(cfg, Start(init), before)
    requires Enabled(cfg, Exec(cfg, Start(init), before), e)
    requires Allowed(cfg, Apply(cfg, Exec(cfg, Start(init), before), e), after)
    ensures var s := Exec(cfg, Start(init), before);
      var t := Apply(cfg, s, e);
      s.history <= t.history <= Exec(cfg, t, after).history && PanelShows(cfg, t, e)
  {
    var s := Exec(cfg, Start(init), before);
    StartInv(cfg, init);
    ExecKeeps(cfg, init, Start(init), before);
    ApplyKeeps(cfg, init, s, e);
    PanelFollows(cfg, s, e);
    EventKeepsHistory(cfg, s, e);
    HistoryGrows(cfg, Apply(cfg, s, e), after);
  }
}
