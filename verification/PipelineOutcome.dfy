/**
 What a finished run must look like: a function of the graph, the initial states and the outcomes
 of the fetches and builds, with no mention of scheduling.
 */
module PipelineOutcome {
  import opened Basics
  import opened PipelineModel

  ghost predicate FetchGood(cfg: Config, init: map<Name, State>, n: Name) {
    && n in init && n in cfg.providers
    && (init[n] == SourceReady || (init[n] == Pending && cfg.providers[n].fetchOk))
  }

  /** The dep's own work succeeds and it is meant to be built. */
  ghost predicate CanWork(cfg: Config, init: map<Name, State>, n: Name) {
    FetchGood(cfg, init, n) && cfg.providers[n].buildOk && n !in cfg.fetchOnlySet
  }

  /** n can be built with at most k builds in a chain below one another. */
  ghost predicate InLevel(cfg: Config, init: map<Name, State>, k: nat, n: Name) {
    || Is(init, n, Done)
    || (k > 0 && CanWork(cfg, init, n) && forall m :: cfg.Needs(n, m) ==> InLevel(cfg, init, k - 1, m))
  }

  /** Membership in the least set that has the initially Done deps and is closed under building. */
  ghost predicate Buildable(cfg: Config, init: map<Name, State>, n: Name) {
    exists k: nat :: InLevel(cfg, init, k, n)
  }

  ghost function Outcome(cfg: Config, init: map<Name, State>, n: Name): State
    requires n in init
  {
    if Terminal(init[n]) then init[n]
    else if !FetchGood(cfg, init, n) then FetchFailed
    else if cfg.fetchOnly || n in cfg.fetchOnlySet then SourceReady
    else if Buildable(cfg, init, n) then Done
    else BuildFailed
  }

  ghost function Final(cfg: Config, init: map<Name, State>): map<Name, State> {
    map n | n in init :: Outcome(cfg, init, n)
  }

  lemma {:induction false} LevelsGrow(cfg: Config, init: map<Name, State>, j: nat, k: nat, n: Name)
    requires j <= k && InLevel(cfg, init, j, n)
    ensures InLevel(cfg, init, k, n)
    decreases j
  {
    if !Is(init, n, Done) {
      forall m | cfg.Needs(n, m) ensures InLevel(cfg, init, k - 1, m) {
        LevelsGrow(cfg, init, j - 1, k - 1, m);
      }
    }
  }

  /** One level holds all prereqs when each of them is buildable. */
  lemma {:induction false} CommonLevel(cfg: Config, init: map<Name, State>, required: seq<Option<Name>>)
    returns (k: nat)
    requires forall m :: Some(m) in required ==> Buildable(cfg, init, m)
    ensures forall m :: Some(m) in required ==> InLevel(cfg, init, k, m)
  {
    if required == [] {
      k := 0;
    } else {
      k := CommonLevel(cfg, init, required[1..]);
      var k0 := k;
      if required[0].Some? {
        var j: nat :| InLevel(cfg, init, j, required[0].value);
        k := if j > k then j else k;
        LevelsGrow(cfg, init, j, k, required[0].value);
      }
      forall m | Some(m) in required ensures InLevel(cfg, init, k, m) {
        if Some(m) != required[0] {
          assert Some(m) in required[1..];
          LevelsGrow(cfg, init, k0, k, m);
        }
      }
    }
  }

  /** Buildable is a fixpoint of the building rule. */
  lemma BuildableIff(cfg: Config, init: map<Name, State>, n: Name)
    ensures Buildable(cfg, init, n)
       <==> Is(init, n, Done) || (CanWork(cfg, init, n) && forall m :: cfg.Needs(n, m) ==> Buildable(cfg, init, m))
  {
    if Is(init, n, Done) {
      assert InLevel(cfg, init, 0, n);
    } else if CanWork(cfg, init, n) && forall m :: cfg.Needs(n, m) ==> Buildable(cfg, init, m) {
      var k := CommonLevel(cfg, init, cfg.providers[n].required);
      assert InLevel(cfg, init, k + 1, n);
    }
    if Buildable(cfg, init, n) && !Is(init, n, Done) {
      var k: nat :| InLevel(cfg, init, k, n);
      forall m | cfg.Needs(n, m) ensures Buildable(cfg, init, m) {
        assert InLevel(cfg, init, k - 1, m);
      }
    }
  }

  /** ... and the least one: every set closed under the rule holds all buildable deps. */
  lemma {:induction false} BuildableIsLeast(cfg: Config, init: map<Name, State>, closed: iset<Name>, k: nat, n: Name)
    requires forall x :: Is(init, x, Done) ==> x in closed
    requires forall x :: CanWork(cfg, init, x) && (forall m :: cfg.Needs(x, m) ==> m in closed) ==> x in closed
    requires InLevel(cfg, init, k, n)
    ensures n in closed
    decreases k
  {
    if !Is(init, n, Done) {
      forall m | cfg.Needs(n, m) ensures m in closed {
        BuildableIsLeast(cfg, init, closed, k - 1, m);
      }
    }
  }
}
