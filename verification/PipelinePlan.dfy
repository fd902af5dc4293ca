/** Phase 1: which deps take part, which are already provisioned, and which are only fetched. */
module PipelinePlan {
  import opened Basics
  import opened PipelineModel
  import opened PipelineOutcome
  import opened PipelineBlame
  import opened PipelineScheduler

  ghost predicate Requires(all: map<Name, Provider>, n: Name, m: Name) {
    n in all && Some(m) in all[n].required
  }

  ghost predicate Path(all: map<Name, Provider>, path: seq<Name>) {
    path != [] && forall i :: 0 < i < |path| ==> Requires(all, path[i - 1], path[i])
  }

  /** n is in the chain of t: reached from it by following prereqs, itself included. */
  ghost predicate Reaches(all: map<Name, Provider>, t: Name, n: Name) {
    exists path :: Path(all, path) && path[0] == t && path[|path| - 1] == n
  }

  ghost predicate ReachedFromAny(all: map<Name, Provider>, targets: seq<Name>, n: Name) {
    exists t :: t in targets && Reaches(all, t, n)
  }

  lemma ReachesFurther(all: map<Name, Provider>, t: Name, n: Name, m: Name)
    requires Reaches(all, t, n) && Requires(all, n, m)
    ensures Reaches(all, t, m)
  {
    var path :| Path(all, path) && path[0] == t && path[|path| - 1] == n;
    assert Path(all, path + [m]);
  }

  /** Nothing to do: the host cannot use it, or it is in place and nobody asked for a rebuild. */
  predicate Provisioned(g: Gate) {
    !g.supportsHost || (g.manifest && !g.force && !g.wipe)
  }

  function PlanState(providers: map<Name, Provider>): map<Name, State> {
    map n | n in providers :: if Provisioned(providers[n].gate) then Done else Pending
  }

  class Planner {
    var state: map<Name, State>
    var providers: map<Name, Provider>
    var fetchOnlySet: set<Name>

    constructor ()
      ensures state == map[] && providers == map[] && fetchOnlySet == {}
    {
      state, providers, fetchOnlySet := map[], map[], {};
    }

    static method NamesIn(chains: seq<seq<Name>>) returns (names: set<Name>)
      ensures forall n :: n in names <==> exists i :: 0 <= i < |chains| && n in chains[i]
    {
      names := {};
      for i := 0 to |chains|
        invariant forall n :: n in names <==> exists j :: 0 <= j < i && n in chains[j]
      {
        ghost var sofar := names;
        for k := 0 to |chains[i]|
          invariant forall n :: n in names <==> n in sofar || n in chains[i][..k]
        {
          names := names + {chains[i][k]};
        }
        assert chains[i][..|chains[i]|] == chains[i];
      }
    }

    method Seed(all: map<Name, Provider>, deps: seq<Name>, buildReachable: set<Name>)
      requires state == map[] && providers == map[]
      requires forall n :: n in deps ==> n in all
      modifies this
      ensures providers == map n | n in deps :: all[n]
      ensures state == PlanState(providers)
      ensures forall n :: n in fetchOnlySet <==> n in deps && n !in buildReachable
    {
      fetchOnlySet := {};
      for i := 0 to |deps|
        invariant providers == map n | n in deps[..i] :: all[n]
        invariant state == PlanState(providers)
        invariant forall n :: n in fetchOnlySet <==> n in deps[..i] && n !in buildReachable
      {
        var n := deps[i];
        var p := all[n];
        assert deps[..i + 1] == deps[..i] + [n];
        providers := providers[n := p];
        if n !in buildReachable {
          fetchOnlySet := fetchOnlySet + {n};
        }
        if !p.gate.supportsHost {
          state := state[n := Done];
          continue;
        }
        if p.gate.manifest && !p.gate.force && !p.gate.wipe {
          state := state[n := Done];
        } else {
          state := state[n := Pending];
        }
      }
      assert deps[..|deps|] == deps;
    }

    /** deps is the chain of all targets together, chains[i] that of the i-th build target. */
    method Phase1Plan(all: map<Name, Provider>, deps: seq<Name>, chains: seq<seq<Name>>,
                      ghost buildTargets: seq<Name>, ghost prefetchTargets: seq<Name>)
      requires state == map[] && providers == map[]
      requires forall n :: n in deps <==> n in all && ReachedFromAny(all, buildTargets + prefetchTargets, n)
      requires |chains| == |buildTargets|
      requires forall i, n :: 0 <= i < |chains| ==> (n in chains[i] <==> n in all && Reaches(all, buildTargets[i], n))
      modifies this
      ensures providers == map n | n in deps :: all[n]
      ensures state == PlanState(providers)
      ensures forall n :: n in fetchOnlySet <==> n in deps && !ReachedFromAny(all, buildTargets, n)
    {
      var buildReachable := NamesIn(chains);
      Seed(all, deps, buildReachable);
      forall n | n in deps ensures n in buildReachable <==> ReachedFromAny(all, buildTargets, n) {
        if n in buildReachable {
          var j :| 0 <= j < |chains| && n in chains[j];
          assert buildTargets[j] in buildTargets;
        }
        if t :| t in buildTargets && Reaches(all, t, n) {
          var j :| 0 <= j < |chains| && buildTargets[j] == t;
          assert n in chains[j];
        }
      }
    }
  }

  /**
   Whatever a planned dep needs is planned too, and a dep to be built never needs one that is only fetched:
   building wins over prefetching all the way down.
   */
  lemma PlanIsClosed(all: map<Name, Provider>, cfg: Config, buildTargets: seq<Name>, prefetchTargets: seq<Name>)
    requires forall n, m :: Requires(all, n, m) ==> m in all
    requires forall n :: n in cfg.deps <==> n in all && ReachedFromAny(all, buildTargets + prefetchTargets, n)
    requires cfg.providers == map n | n in cfg.deps :: all[n]
    requires forall n :: n in cfg.fetchOnlySet <==> n in cfg.deps && !ReachedFromAny(all, buildTargets, n)
    ensures forall n, m :: cfg.Needs(n, m) ==> m in cfg.providers
    ensures FetchOnlyApart(cfg)
  {
    forall n, m | cfg.Needs(n, m)
      ensures m in cfg.providers && (n !in cfg.fetchOnlySet ==> m !in cfg.fetchOnlySet)
    {
      assert Requires(all, n, m);
      var t :| t in buildTargets + prefetchTargets && Reaches(all, t, n)
        && (n !in cfg.fetchOnlySet ==> t in buildTargets);
      ReachesFurther(all, t, n, m);
    }
  }

  /** The dep's own part of the work, as far as it is asked for. */
  ghost predicate OwnWorkOk(cfg: Config, n: Name)
    requires n in cfg.providers
  {
    cfg.providers[n].fetchOk && (cfg.fetchOnly || n in cfg.fetchOnlySet || cfg.providers[n].buildOk)
  }

  ghost predicate AllWorkOk(cfg: Config) {
    forall n :: n in cfg.providers && !Provisioned(cfg.providers[n].gate) ==> OwnWorkOk(cfg, n)
  }

  /** phase2_execute reports success exactly when every fetch and build it needed succeeded. */
  lemma SuccessIffAllWorkOk(cfg: Config)
    requires cfg.Valid() && DepsFirst(cfg) && FetchOnlyApart(cfg)
    ensures Complete(cfg, Final(cfg, PlanState(cfg.providers))) <==> AllWorkOk(cfg)
  {
    var init := PlanState(cfg.providers);
    if AllWorkOk(cfg) {
      forall n | n in cfg.providers && n !in cfg.fetchOnlySet && !cfg.fetchOnly ensures Buildable(cfg, init, n) {
        forall c | WaitsOn(cfg, init, n, c) ensures CanWork(cfg, init, c) {
          var path :| WaitPath(cfg, init, path) && path[0] == n && path[|path| - 1] == c;
          PathStaysBuilt(cfg, init, path, |path| - 1);
        }
        BuildableIffAllWork(cfg, init, n);
      }
    }
    if Complete(cfg, Final(cfg, init)) {
      forall n | n in cfg.providers && !Provisioned(cfg.providers[n].gate) ensures OwnWorkOk(cfg, n) {
        assert n in cfg.deps && init[n] == Pending;
        BuildableIff(cfg, init, n);
      }
    }
  }
}
