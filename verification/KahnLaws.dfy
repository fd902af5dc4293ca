/** What a build order contains, in which order, and when two tie-breaking rules give the same one. */
module KahnLaws {
  import opened Basics
  import opened PipelineModel
  import opened KahnOrder

  /** Nothing twice, and each dep after all its prereqs. */
  ghost predicate Topological(ch: Chain, order: seq<Name>) {
    && NoDup(order)
    && forall i :: 0 <= i < |order| ==> order[i] in ch.dict && AllEmitted(ch, order[i], order[..i])
  }

  lemma GreedyIsTopological(ch: Chain, order: seq<Name>)
    requires Greedy(ch, order)
    ensures Topological(ch, order)
  {
    forall i | 0 <= i < |order| ensures Available(ch, order[i], order[..i]) {
      assert GreedyStep(ch, order, i);
    }
    forall i, j | 0 <= i < j < |order| ensures order[i] != order[j] {
      assert order[i] in order[..j];
    }
  }

  // ---- which deps are emitted ----

  ghost predicate Trail(ch: Chain, path: seq<Name>) {
    && path != []
    && (forall i :: 0 <= i < |path| ==> path[i] in ch.dict)
    && forall i :: 0 < i < |path| ==> ch.Needs(path[i - 1], path[i])
  }

  /** Following prereqs from n one can come to the same dep twice. */
  ghost predicate MeetsCycle(ch: Chain, n: Name) {
    exists path: seq<Name> :: Trail(ch, path) && path[0] == n && !NoDup(path)
  }

  lemma {:induction false} TrailGoesBack(ch: Chain, order: seq<Name>, path: seq<Name>, i: nat)
    requires Topological(ch, order) && Trail(ch, path) && path[0] in order && i < |path|
    ensures path[i] in order
    ensures i > 0 ==> Position(order)(path[i]) < Position(order)(path[i - 1])
    decreases i
  {
    if i > 0 {
      TrailGoesBack(ch, order, path, i - 1);
      var k := IndexOf(order, path[i - 1]);
      assert AllEmitted(ch, order[k], order[..k]) && ch.Needs(path[i - 1], path[i]);
      assert path[i] in order[..k];
      var j :| 0 <= j < k && order[..k][j] == path[i];
      assert order[j] == path[i];
    }
  }

  lemma {:induction false} TrailDescends(ch: Chain, order: seq<Name>, path: seq<Name>, i: nat, j: nat)
    requires Topological(ch, order) && Trail(ch, path) && path[0] in order && i < j < |path|
    ensures Position(order)(path[j]) < Position(order)(path[i])
    decreases j
  {
    TrailGoesBack(ch, order, path, j);
    if i < j - 1 {
      TrailDescends(ch, order, path, i, j - 1);
    }
  }

  /** From a dep that is left over one can walk through left-over deps as long as one likes. */
  lemma {:induction false} LongTrail(ch: Chain, order: seq<Name>, n: Name, len: nat) returns (path: seq<Name>)
    requires IsBuildOrder(ch, order) && n in ch.dict && n !in order
    ensures Trail(ch, path) && path[0] == n && |path| == len + 1
    decreases len
  {
    if len == 0 {
      path := [n];
    } else {
      assert !Available(ch, n, order);
      var m :| ch.Needs(n, m) && m !in order;
      var rest := LongTrail(ch, order, m, len - 1);
      path := [n] + rest;
      assert forall i :: 0 < i < |path| ==> path[i] == rest[i - 1];
      forall i | 0 < i < |path| ensures ch.Needs(path[i - 1], path[i]) {
        assert i > 1 ==> path[i - 1] == rest[i - 2];
      }
    }
  }

  /** The build order lists exactly the deps that meet no cycle; so it lists all deps of an acyclic chain. */
  lemma EmittedIffNoCycle(ch: Chain, order: seq<Name>, n: Name)
    requires IsBuildOrder(ch, order) && n in ch.dict
    ensures n in order <==> !MeetsCycle(ch, n)
  {
    GreedyIsTopological(ch, order);
    if n in order {
      forall path: seq<Name> | Trail(ch, path) && path[0] == n ensures NoDup(path) {
        forall i, j | 0 <= i < j < |path| ensures path[i] != path[j] {
          TrailDescends(ch, order, path, i, j);
        }
      }
    } else {
      var path := LongTrail(ch, order, n, |ch.dict.Keys|);
      if NoDup(path) {
        NoDupBound(path, ch.dict.Keys);
      }
    }
  }

  // ---- uniqueness ----

  lemma {:induction false} SamePrefix(ch: Chain, a: seq<Name>, b: seq<Name>, k: nat)
    requires IsBuildOrder(ch, a) && IsBuildOrder(ch, b) && ch.Distinct() && ch.Valid()
    requires k <= |a|
    ensures k <= |b| && a[..k] == b[..k]
    decreases k
  {
    if k > 0 {
      SamePrefix(ch, a, b, k - 1);
      var c := b[..k - 1];
      assert |b| == k - 1 ==> c == b;
      assert GreedyStep(ch, a, k - 1) && Available(ch, a[k - 1], c);
      assert GreedyStep(ch, b, k - 1);
    }
  }

  /** With distinct indices the specification leaves no choice. */
  lemma BuildOrderUnique(ch: Chain, a: seq<Name>, b: seq<Name>)
    requires IsBuildOrder(ch, a) && IsBuildOrder(ch, b) && ch.Distinct() && ch.Valid()
    ensures a == b
  {
    SamePrefix(ch, a, b, |a|);
    SamePrefix(ch, b, a, |b|);
  }
}
