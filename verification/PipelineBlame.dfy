/** On a dependencies-first list, a dep fails to build only because something it waits on failed by itself. */
module PipelineBlame {
  import opened Basics
  import opened PipelineModel
  import opened PipelineOutcome
  import opened PipelineSafety

  /** Every prereq is listed, and listed earlier. */
  ghost predicate DepsFirst(cfg: Config) {
    forall i, m :: 0 <= i < |cfg.deps| && cfg.Needs(cfg.deps[i], m) ==> m in cfg.deps[..i]
  }

  /** A dep to be built needs only deps to be built. */
  ghost predicate FetchOnlyApart(cfg: Config) {
    forall n, m :: cfg.Needs(n, m) && n !in cfg.fetchOnlySet ==> m !in cfg.fetchOnlySet
  }

  /** Each dep on the path still has to be provisioned and needs the next one. */
  ghost predicate WaitPath(cfg: Config, init: map<Name, State>, path: seq<Name>) {
    && path != []
    && (forall i :: 0 <= i < |path| ==> path[i] in cfg.providers && !Is(init, path[i], Done))
    && (forall i :: 0 < i < |path| ==> cfg.Needs(path[i - 1], path[i]))
  }

  ghost predicate WaitsOn(cfg: Config, init: map<Name, State>, n: Name, c: Name) {
    exists path :: WaitPath(cfg, init, path) && path[0] == n && path[|path| - 1] == c
  }

  lemma {:induction false} AllOnPathWork(cfg: Config, init: map<Name, State>, path: seq<Name>)
    requires WaitPath(cfg, init, path) && Buildable(cfg, init, path[0])
    ensures CanWork(cfg, init, path[|path| - 1])
    decreases |path|
  {
    BuildableIff(cfg, init, path[0]);
    if |path| > 1 {
      assert cfg.Needs(path[0], path[1]);
      AllOnPathWork(cfg, init, path[1..]);
    }
  }

  lemma LongerPath(cfg: Config, init: map<Name, State>, n: Name, path: seq<Name>)
    requires WaitPath(cfg, init, path) && cfg.Needs(n, path[0]) && !Is(init, n, Done)
    ensures WaitPath(cfg, init, [n] + path)
  {
    var longer := [n] + path;
    forall i | 0 < i < |longer| ensures cfg.Needs(longer[i - 1], longer[i]) {
      assert i > 1 ==> longer[i - 1] == path[i - 2];
    }
  }

  lemma WaitsOnFurther(cfg: Config, init: map<Name, State>, n: Name, m: Name, c: Name)
    requires cfg.Needs(n, m) && n in cfg.providers && !Is(init, n, Done) && WaitsOn(cfg, init, m, c)
    ensures WaitsOn(cfg, init, n, c)
  {
    var path :| WaitPath(cfg, init, path) && path[0] == m && path[|path| - 1] == c;
    LongerPath(cfg, init, n, path);
    assert ([n] + path)[|path|] == c;
  }

  lemma {:induction false} CleanIsBuildable(cfg: Config, init: map<Name, State>, i: nat)
    requires cfg.Valid() && DepsFirst(cfg) && i < |cfg.deps|
    requires forall c :: WaitsOn(cfg, init, cfg.deps[i], c) ==> CanWork(cfg, init, c)
    ensures Buildable(cfg, init, cfg.deps[i])
    decreases i
  {
    var n := cfg.deps[i];
    BuildableIff(cfg, init, n);
    if !Is(init, n, Done) {
      assert WaitPath(cfg, init, [n]);
      assert WaitsOn(cfg, init, n, n);
      forall m | cfg.Needs(n, m) ensures Buildable(cfg, init, m) {
        var j :| 0 <= j < i && cfg.deps[j] == m;
        forall c | WaitsOn(cfg, init, m, c) ensures CanWork(cfg, init, c) {
          WaitsOnFurther(cfg, init, n, m, c);
        }
        CleanIsBuildable(cfg, init, j);
      }
    }
  }

  /** A dep can be built exactly when everything it transitively waits on, itself included, can do its own work. */
  lemma BuildableIffAllWork(cfg: Config, init: map<Name, State>, n: Name)
    requires cfg.Valid() && DepsFirst(cfg) && n in cfg.providers
    ensures Buildable(cfg, init, n) <==> forall c :: WaitsOn(cfg, init, n, c) ==> CanWork(cfg, init, c)
  {
    var i :| 0 <= i < |cfg.deps| && cfg.deps[i] == n;
    if forall c :: WaitsOn(cfg, init, n, c) ==> CanWork(cfg, init, c) {
      CleanIsBuildable(cfg, init, i);
    }
    if Buildable(cfg, init, n) {
      forall c | WaitsOn(cfg, init, n, c) ensures CanWork(cfg, init, c) {
        var path :| WaitPath(cfg, init, path) && path[0] == n && path[|path| - 1] == c;
        AllOnPathWork(cfg, init, path);
      }
    }
  }

  /** The dep's own fetch or own build fails (or had failed before the run). */
  ghost predicate Culprit(cfg: Config, init: map<Name, State>, c: Name) {
    c in cfg.providers && (!FetchGood(cfg, init, c) || !cfg.providers[c].buildOk)
  }

  lemma {:induction false} PathStaysBuilt(cfg: Config, init: map<Name, State>, path: seq<Name>, i: nat)
    requires FetchOnlyApart(cfg) && WaitPath(cfg, init, path) && path[0] !in cfg.fetchOnlySet && i < |path|
    ensures path[i] !in cfg.fetchOnlySet
    decreases i
  {
    if i > 0 {
      PathStaysBuilt(cfg, init, path, i - 1);
      assert cfg.Needs(path[i - 1], path[i]);
    }
  }

  lemma BuildableIffNoCulprit(cfg: Config, init: map<Name, State>, n: Name)
    requires cfg.Valid() && DepsFirst(cfg) && FetchOnlyApart(cfg) && n in cfg.providers && n !in cfg.fetchOnlySet
    ensures Buildable(cfg, init, n) <==> !exists c :: WaitsOn(cfg, init, n, c) && Culprit(cfg, init, c)
  {
    BuildableIffAllWork(cfg, init, n);
    forall c | WaitsOn(cfg, init, n, c) ensures Culprit(cfg, init, c) <==> !CanWork(cfg, init, c) {
      var path :| WaitPath(cfg, init, path) && path[0] == n && path[|path| - 1] == c;
      PathStaysBuilt(cfg, init, path, |path| - 1);
    }
  }

  /**
   No innocent is condemned, and no guilty dep escapes: after a build run, a fetched dep that was to be
   built is BuildFailed if and only if it, or something it waits on, failed by itself.
   */
  lemma {:induction false} CondemnedIffCulprit(cfg: Config, init: map<Name, State>, events: seq<Event>, n: Name)
    requires cfg.Valid() && Initial(cfg, init) && Allowed(cfg, Start(init), events)
    requires Exec(cfg, Start(init), events).returned
    requires DepsFirst(cfg) && FetchOnlyApart(cfg) && !cfg.fetchOnly
    requires n in cfg.providers && n !in cfg.fetchOnlySet && FetchGood(cfg, init, n)
    ensures Is(Exec(cfg, Start(init), events).st, n, BuildFailed)
       <==> exists c :: WaitsOn(cfg, init, n, c) && Culprit(cfg, init, c)
  {
    ReturnedIsFinal(cfg, init, events);
    BuildableIffNoCulprit(cfg, init, n);
  }

  // ---- any graph ----

  ghost predicate LacksPrereq(cfg: Config, c: Name) {
    exists m :: cfg.Needs(c, m) && m !in cfg.providers
  }

  /** A path of waiting deps that ends at one that cannot be built for its own sake, or that comes back to a dep. */
  ghost predicate DeadEnd(cfg: Config, init: map<Name, State>, path: seq<Name>) {
    && WaitPath(cfg, init, path)
    && (!CanWork(cfg, init, path[|path| - 1]) || LacksPrereq(cfg, path[|path| - 1]) || !NoDup(path))
  }

  ghost function LeastFrom(cfg: Config, init: map<Name, State>, n: Name, k: nat): (r: nat)
    requires InLevel(cfg, init, k, n)
    ensures InLevel(cfg, init, r, n) && (r > 0 ==> !InLevel(cfg, init, r - 1, n))
  {
    if k == 0 || !InLevel(cfg, init, k - 1, n) then k else LeastFrom(cfg, init, n, k - 1)
  }

  /** The height of the dep above those that are Done from the start. */
  ghost function Least(cfg: Config, init: map<Name, State>, n: Name): (r: nat)
    requires Buildable(cfg, init, n)
    ensures InLevel(cfg, init, r, n) && (r > 0 ==> !InLevel(cfg, init, r - 1, n))
  {
    var k: nat :| InLevel(cfg, init, k, n);
    LeastFrom(cfg, init, n, k)
  }

  lemma LeastDrops(cfg: Config, init: map<Name, State>, n: Name, m: Name)
    requires Buildable(cfg, init, n) && !Is(init, n, Done) && cfg.Needs(n, m)
    ensures Buildable(cfg, init, m) && Least(cfg, init, m) < Least(cfg, init, n)
  {
    var k := Least(cfg, init, n);
    assert InLevel(cfg, init, k, n);
    assert InLevel(cfg, init, k - 1, m);
    if Least(cfg, init, m) >= k {
      LevelsGrow(cfg, init, k - 1, Least(cfg, init, m) - 1, m);
    }
  }

  lemma {:induction false} PathDrops(cfg: Config, init: map<Name, State>, path: seq<Name>, i: nat)
    requires WaitPath(cfg, init, path) && Buildable(cfg, init, path[0]) && i < |path|
    ensures forall j :: 0 <= j <= i ==> Buildable(cfg, init, path[j])
    ensures forall j :: 0 <= j < i ==> Least(cfg, init, path[i]) < Least(cfg, init, path[j])
    decreases i
  {
    if i > 0 {
      PathDrops(cfg, init, path, i - 1);
      LeastDrops(cfg, init, path[i - 1], path[i]);
    }
  }

  lemma NoDeadEnd(cfg: Config, init: map<Name, State>, path: seq<Name>)
    requires cfg.Valid() && init.Keys == cfg.providers.Keys
    requires WaitPath(cfg, init, path) && Buildable(cfg, init, path[0])
    ensures !DeadEnd(cfg, init, path)
  {
    var last := path[|path| - 1];
    AllOnPathWork(cfg, init, path);
    PathDrops(cfg, init, path, |path| - 1);
    BuildableIff(cfg, init, last);
    forall m | cfg.Needs(last, m) ensures m in cfg.providers {
      BuildableIff(cfg, init, m);
    }
    forall i, j | 0 <= i < j < |path| ensures path[i] != path[j] {
      PathDrops(cfg, init, path, j);
    }
  }

  lemma NoDupTail<T>(x: T, xs: seq<T>)
    requires NoDup([x] + xs)
    ensures NoDup(xs)
  {
    forall i, j | 0 <= i < j < |xs| ensures xs[i] != xs[j] {
      assert ([x] + xs)[i + 1] != ([x] + xs)[j + 1];
    }
  }

  lemma DeadEndFurther(cfg: Config, init: map<Name, State>, n: Name, path: seq<Name>)
    requires WaitPath(cfg, init, [n] + path) && DeadEnd(cfg, init, path)
    ensures DeadEnd(cfg, init, [n] + path)
  {
    assert ([n] + path)[|path|] == path[|path| - 1];
    if NoDup([n] + path) {
      NoDupTail(n, path);
    }
  }

  ghost predicate OnlyOpenEnds(cfg: Config, init: map<Name, State>, n: Name) {
    forall path :: WaitPath(cfg, init, path) && path[0] == n ==> !DeadEnd(cfg, init, path)
  }

  lemma OpenEndsFurther(cfg: Config, init: map<Name, State>, n: Name, m: Name)
    requires OnlyOpenEnds(cfg, init, n) && n in cfg.providers && !Is(init, n, Done) && cfg.Needs(n, m)
    ensures OnlyOpenEnds(cfg, init, m)
  {
    forall path | WaitPath(cfg, init, path) && path[0] == m ensures !DeadEnd(cfg, init, path) {
      LongerPath(cfg, init, n, path);
      assert !DeadEnd(cfg, init, [n] + path);
      if DeadEnd(cfg, init, path) {
        DeadEndFurther(cfg, init, n, path);
      }
    }
  }

  /** With open ends only, a dep that cannot be built waits on ever more deps. */
  lemma {:induction false} LongWait(cfg: Config, init: map<Name, State>, n: Name, len: nat) returns (path: seq<Name>)
    requires n in cfg.providers && !Buildable(cfg, init, n) && OnlyOpenEnds(cfg, init, n)
    ensures WaitPath(cfg, init, path) && path[0] == n && |path| == len + 1
    decreases len
  {
    BuildableIff(cfg, init, n);
    path := [n];
    assert WaitPath(cfg, init, path) && !DeadEnd(cfg, init, path);
    if len > 0 {
      var m :| cfg.Needs(n, m) && !Buildable(cfg, init, m);
      OpenEndsFurther(cfg, init, n, m);
      var rest := LongWait(cfg, init, m, len - 1);
      LongerPath(cfg, init, n, rest);
      path := [n] + rest;
    }
  }

  /** On any graph a dep can be built exactly when no path of waiting deps from it is a dead end. */
  lemma {:induction false} BuildableIffNoDeadEnd(cfg: Config, init: map<Name, State>, n: Name)
    requires cfg.Valid() && init.Keys == cfg.providers.Keys && n in cfg.providers
    ensures Buildable(cfg, init, n) <==> OnlyOpenEnds(cfg, init, n)
  {
    if Buildable(cfg, init, n) {
      forall path | WaitPath(cfg, init, path) && path[0] == n ensures !DeadEnd(cfg, init, path) {
        NoDeadEnd(cfg, init, path);
      }
    } else if OnlyOpenEnds(cfg, init, n) {
      var path := LongWait(cfg, init, n, |cfg.providers|);
      assert !DeadEnd(cfg, init, path);
      assert |cfg.providers| == |cfg.providers.Keys|;
      NoDupBound(path, cfg.providers.Keys);
    }
  }

  /**
   Who is condemned on any graph: after a build run, a fetched dep that was to be built is BuildFailed if and only if a
   path of deps that waited for one another leads from it to one that failed by itself, was only to be fetched, or has
   no such prereq in the plan, or leads around a cycle.
   */
  lemma {:induction false} CondemnedIffDeadEnd(cfg: Config, init: map<Name, State>, events: seq<Event>, n: Name)
    requires cfg.Valid() && Initial(cfg, init) && Allowed(cfg, Start(init), events)
    requires Exec(cfg, Start(init), events).returned && !cfg.fetchOnly
    requires n in cfg.providers && n !in cfg.fetchOnlySet && FetchGood(cfg, init, n)
    ensures Is(Exec(cfg, Start(init), events).st, n, BuildFailed)
       <==> exists path :: DeadEnd(cfg, init, path) && path[0] == n
  {
    ReturnedIsFinal(cfg, init, events);
    BuildableIffNoDeadEnd(cfg, init, n);
  }
}
