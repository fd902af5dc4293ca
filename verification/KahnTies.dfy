/**
 The build order depends on how ties between equal priorities are broken.  Two tie-breaking indices give
 the same order for every choice of priorities exactly when they agree on all unrelated pairs of deps.
 */
module KahnTies {
  import opened Basics
  import opened StableSort
  import opened PipelineModel
  import opened KahnOrder
  import opened KahnLaws

  ghost predicate Leads(ch: Chain, a: Name, b: Name) {
    exists path: seq<Name> :: Trail(ch, path) && path[0] == a && path[|path| - 1] == b
  }

  ghost predicate Unrelated(ch: Chain, a: Name, b: Name) {
    a in ch.dict && b in ch.dict && !Leads(ch, a, b) && !Leads(ch, b, a)
  }

  ghost predicate Indexes(ch: Chain, index: map<Name, int>) {
    && (forall n :: n in ch.dict ==> n in index)
    && forall m, n :: m in ch.dict && n in ch.dict && index[m] == index[n] ==> m == n
  }

  ghost predicate TiesAgree(ch: Chain, one: map<Name, int>, two: map<Name, int>)
    requires Indexes(ch, one) && Indexes(ch, two)
  {
    forall a, b :: Unrelated(ch, a, b) ==> (one[a] < one[b] <==> two[a] < two[b])
  }

  /** The same deps with other priorities and tie-breaking indices. */
  function Ranked(ch: Chain, priorities: map<Name, int>, index: map<Name, int>): Chain {
    Chain(ch.list,
      map n | n in ch.dict :: ch.dict[n].(priority := if n in priorities then priorities[n] else 0), index)
  }

  lemma RankedGraph(ch: Chain, priorities: map<Name, int>, index: map<Name, int>)
    requires ch.Valid() && Indexes(ch, index)
    ensures var c := Ranked(ch, priorities, index);
      && c.Valid() && c.Distinct() && c.dict.Keys == ch.dict.Keys
      && (forall n, m :: c.Needs(n, m) <==> ch.Needs(n, m))
      && (forall a, b :: Leads(c, a, b) <==> Leads(ch, a, b))
      && (forall n :: MeetsCycle(c, n) <==> MeetsCycle(ch, n))
      && (forall n, order :: Available(c, n, order) <==> Available(ch, n, order))
  {
    var c := Ranked(ch, priorities, index);
    assert forall n, m :: c.Needs(n, m) <==> ch.Needs(n, m);
    assert forall path :: Trail(c, path) <==> Trail(ch, path);
    assert forall n, order :: AllEmitted(c, n, order) <==> AllEmitted(ch, n, order);
  }

  // ---- agreement on unrelated pairs is enough ----

  /** Everything a trail from an emitted dep visits has been emitted. */
  lemma TrailEmitted(ch: Chain, order: seq<Name>, a: Name, b: Name)
    requires Topological(ch, order) && a in order && Leads(ch, a, b)
    ensures b in order
  {
    var path: seq<Name> :| Trail(ch, path) && path[0] == a && path[|path| - 1] == b;
    TrailGoesBack(ch, order, path, |path| - 1);
  }

  lemma AvailableUnrelated(ch: Chain, order: seq<Name>, a: Name, b: Name)
    requires Topological(ch, order) && Available(ch, a, order) && Available(ch, b, order) && a != b
    ensures !Leads(ch, a, b)
  {
    if Leads(ch, a, b) {
      var path: seq<Name> :| Trail(ch, path) && path[0] == a && path[|path| - 1] == b;
      assert ch.Needs(path[0], path[1]);
      assert Trail(ch, path[1..]);
      assert Leads(ch, path[1], b);
      TrailEmitted(ch, order, path[1], b);
    }
  }

  lemma PrefixTopological(ch: Chain, order: seq<Name>, k: nat)
    requires Greedy(ch, order) && k <= |order|
    ensures Topological(ch, order[..k])
  {
    forall i | 0 <= i < k ensures GreedyStep(ch, order[..k], i) {
      assert GreedyStep(ch, order, i) && order[..k][..i] == order[..i];
    }
    GreedyIsTopological(ch, order[..k]);
  }

  ghost predicate IsBest(ch: Chain, n: Name, done: seq<Name>) {
    Available(ch, n, done) && forall m :: Available(ch, m, done) ==> !Less(OrderKey(ch)(m), OrderKey(ch)(n))
  }

  /** Two chains that differ in their indices only, and agree on unrelated pairs. */
  ghost predicate Agreeing(c: Chain, d: Chain) {
    && c.Valid() && d.Valid() && c.dict == d.dict
    && Indexes(c, c.topoIndex) && Indexes(c, d.topoIndex) && TiesAgree(c, c.topoIndex, d.topoIndex)
  }

  lemma SameBest(c: Chain, d: Chain, done: seq<Name>, x: Name, y: Name)
    requires Agreeing(c, d) && Topological(c, done) && IsBest(c, x, done) && IsBest(d, y, done)
    ensures x == y
  {
    assert forall n, m :: c.Needs(n, m) <==> d.Needs(n, m);
    assert Available(c, y, done) && Available(d, x, done);
    if x != y {
      AvailableUnrelated(c, done, x, y);
      AvailableUnrelated(c, done, y, x);
      assert Unrelated(c, x, y) && Unrelated(c, y, x);
    }
  }

  /** Where the one order goes on, the other does too, and in the same way. */
  lemma AgreeingStep(c: Chain, d: Chain, a: seq<Name>, b: seq<Name>, k: nat)
    requires Agreeing(c, d) && IsBuildOrder(c, a) && IsBuildOrder(d, b) && k < |a|
    requires k <= |b| && a[..k] == b[..k]
    ensures k < |b| && a[k] == b[k]
  {
    var done := b[..k];
    assert GreedyStep(c, a, k) && IsBest(c, a[k], done);
    SameAvailable(c, d, a[k], done);
    assert k == |b| ==> done == b;
    if k < |b| {
      assert GreedyStep(d, b, k) && IsBest(d, b[k], done);
      PrefixTopological(c, a, k);
      SameBest(c, d, done, a[k], b[k]);
    }
  }

  lemma SameAvailable(c: Chain, d: Chain, n: Name, done: seq<Name>)
    requires c.dict == d.dict
    ensures Available(c, n, done) <==> Available(d, n, done)
  {
    assert forall x, m :: c.Needs(x, m) <==> d.Needs(x, m);
  }

  lemma {:induction false} AgreeingPrefix(c: Chain, d: Chain, a: seq<Name>, b: seq<Name>, k: nat)
    requires Agreeing(c, d) && IsBuildOrder(c, a) && IsBuildOrder(d, b) && k <= |a|
    ensures k <= |b| && a[..k] == b[..k]
    decreases k
  {
    if k > 0 {
      AgreeingPrefix(c, d, a, b, k - 1);
      AgreeingStep(c, d, a, b, k - 1);
      TakeOneMore(a, k - 1);
      TakeOneMore(b, k - 1);
    }
  }

  lemma AgreeingTiesSameOrder(c: Chain, d: Chain, a: seq<Name>, b: seq<Name>)
    requires Agreeing(c, d) && IsBuildOrder(c, a) && IsBuildOrder(d, b)
    ensures a == b
  {
    AgreeingPrefix(c, d, a, b, |a|);
    forall x, y | Unrelated(d, x, y) ensures Unrelated(c, x, y) {
      SameLeads(c, d, x, y);
      SameLeads(c, d, y, x);
    }
    assert Agreeing(d, c);
    AgreeingPrefix(d, c, b, a, |b|);
  }

  lemma SameLeads(c: Chain, d: Chain, a: Name, b: Name)
    requires c.dict == d.dict
    ensures Leads(c, a, b) <==> Leads(d, a, b)
  {
    assert forall n, m :: c.Needs(n, m) <==> d.Needs(n, m);
    assert forall path :: Trail(c, path) <==> Trail(d, path);
  }

  // ---- and it is necessary ----

  lemma {:induction false} Best(ch: Chain, names: set<Name>) returns (n: Name)
    requires names != {}
    ensures n in names && forall m :: m in names ==> !Less(OrderKey(ch)(m), OrderKey(ch)(n))
  {
    n :| n in names;
    if names != {n} {
      var m := Best(ch, names - {n});
      n := if Less(OrderKey(ch)(m), OrderKey(ch)(n)) then m else n;
    }
  }

  lemma {:induction false} BuildOrderFrom(ch: Chain, prefix: seq<Name>) returns (order: seq<Name>)
    requires Greedy(ch, prefix)
    ensures IsBuildOrder(ch, order)
    decreases ch.dict.Keys - Elements(prefix)
  {
    var open := set n | n in ch.dict && Available(ch, n, prefix);
    if open == {} {
      order := prefix;
      forall n ensures !Available(ch, n, prefix) {
        assert n !in open;
      }
    } else {
      var n := Best(ch, open);
      GreedyExtends(ch, prefix, n);
      ElementsAppend(prefix, n);
      assert n in ch.dict.Keys - Elements(prefix);
      order := BuildOrderFrom(ch, prefix + [n]);
    }
  }

  /** a and b stand before everything else but what they need. */
  ghost function Favour(ch: Chain, a: Name, b: Name): map<Name, int> {
    map n | n in ch.dict :: if n == a || n == b then 1 else if Leads(ch, a, n) || Leads(ch, b, n) then 2 else 0
  }

  lemma LeadsFurther(ch: Chain, a: Name, d: Name, e: Name)
    requires Leads(ch, a, d) && ch.Needs(d, e)
    ensures Leads(ch, a, e)
    ensures a == e ==> MeetsCycle(ch, a)
  {
    var path: seq<Name> :| Trail(ch, path) && path[0] == a && path[|path| - 1] == d;
    assert Trail(ch, path + [e]);
    if a == e {
      assert (path + [e])[0] == (path + [e])[|path|];
      assert !NoDup(path + [e]);
    }
  }

  /** Under these priorities all that a needs is emitted before b is. */
  lemma {:induction false} NeedsComeFirst(c: Chain, order: seq<Name>, a: Name, b: Name, k: nat, j: nat)
    requires IsBuildOrder(c, order) && k < |order| && order[k] == b && j < |order|
    requires a in c.dict && b in c.dict && !Leads(c, a, b) && !MeetsCycle(c, a)
    requires c.dict[b].priority == 1
    requires forall n :: n in c.dict && Leads(c, a, n) && n != a ==> c.dict[n].priority == 2
    requires Leads(c, a, order[j]) && order[j] != a
    ensures j < k
    decreases j
  {
    GreedyIsTopological(c, order);
    if j >= k {
      assert j > k;
      forall m | c.Needs(order[j], m) ensures m in order[..k] {
        assert m in order[..j];
        var i :| 0 <= i < j && order[i] == m;
        LeadsFurther(c, a, order[j], m);
        NeedsComeFirst(c, order, a, b, k, i);
      }
      assert GreedyStep(c, order, k) && Available(c, order[j], order[..k]);
    }
  }

  lemma TieDecides(c: Chain, order: seq<Name>, a: Name, b: Name)
    requires IsBuildOrder(c, order) && a in order && b in order && a != b
    requires a in c.dict && b in c.dict && !Leads(c, a, b) && !MeetsCycle(c, a)
    requires c.dict[a].priority == 1 && c.dict[b].priority == 1
    requires a in c.topoIndex && b in c.topoIndex && c.topoIndex[a] < c.topoIndex[b]
    requires forall n :: n in c.dict && Leads(c, a, n) && n != a ==> c.dict[n].priority == 2
    ensures Position(order)(a) < Position(order)(b)
  {
    GreedyIsTopological(c, order);
    var i, k := IndexOf(order, a), IndexOf(order, b);
    if k < i {
      forall m | c.Needs(a, m) ensures m in order[..k] {
        assert m in order[..i];
        var j :| 0 <= j < i && order[j] == m;
        assert Trail(c, [a]) && Leads(c, a, a);
        LeadsFurther(c, a, a, m);
        NeedsComeFirst(c, order, a, b, k, j);
      }
      assert GreedyStep(c, order, k) && Available(c, a, order[..k]);
    }
  }

  ghost predicate Acyclic(ch: Chain) {
    forall n :: n in ch.dict ==> !MeetsCycle(ch, n)
  }

  /** An unrelated pair that is tied differently is built in different orders under suitable priorities. */
  lemma DisagreeingTiesDiffer(ch: Chain, one: map<Name, int>, two: map<Name, int>, a: Name, b: Name)
      returns (priorities: map<Name, int>, x: seq<Name>, y: seq<Name>)
    requires ch.Valid() && Acyclic(ch) && Indexes(ch, one) && Indexes(ch, two)
    requires Unrelated(ch, a, b) && one[a] < one[b] && two[b] < two[a]
    ensures IsBuildOrder(Ranked(ch, priorities, one), x) && IsBuildOrder(Ranked(ch, priorities, two), y)
    ensures x != y
  {
    priorities := Favour(ch, a, b);
    var c, d := Ranked(ch, priorities, one), Ranked(ch, priorities, two);
    RankedGraph(ch, priorities, one);
    RankedGraph(ch, priorities, two);
    x := BuildOrderFrom(c, []);
    y := BuildOrderFrom(d, []);
    EmittedIffNoCycle(c, x, a);
    EmittedIffNoCycle(c, x, b);
    EmittedIffNoCycle(d, y, a);
    EmittedIffNoCycle(d, y, b);
    TieDecides(c, x, a, b);
    TieDecides(d, y, b, a);
  }

  ghost predicate SameOrders(ch: Chain, one: map<Name, int>, two: map<Name, int>) {
    forall priorities, x, y ::
      IsBuildOrder(Ranked(ch, priorities, one), x) && IsBuildOrder(Ranked(ch, priorities, two), y) ==> x == y
  }

  lemma RankedAgree(ch: Chain, one: map<Name, int>, two: map<Name, int>, priorities: map<Name, int>)
    requires ch.Valid() && Indexes(ch, one) && Indexes(ch, two) && TiesAgree(ch, one, two)
    ensures Agreeing(Ranked(ch, priorities, one), Ranked(ch, priorities, two))
  {
    var c, d := Ranked(ch, priorities, one), Ranked(ch, priorities, two);
    RankedUnrelated(ch, priorities, one);
    assert c.dict == d.dict && c.Valid() && d.Valid();
  }

  lemma RankedUnrelated(ch: Chain, priorities: map<Name, int>, index: map<Name, int>)
    requires ch.Valid() && Indexes(ch, index)
    ensures forall a, b :: Unrelated(Ranked(ch, priorities, index), a, b) ==> Unrelated(ch, a, b)
  {
    var c := Ranked(ch, priorities, index);
    RankedGraph(ch, priorities, index);
    forall a, b | Unrelated(c, a, b) ensures Unrelated(ch, a, b) {
      assert Leads(c, a, b) <==> Leads(ch, a, b);
      assert Leads(c, b, a) <==> Leads(ch, b, a);
    }
  }

  /** Two indices give the same order under all priorities exactly when they agree on all unrelated pairs. */
  lemma OrdersAgreeIffTiesAgree(ch: Chain, one: map<Name, int>, two: map<Name, int>)
    requires ch.Valid() && Acyclic(ch) && Indexes(ch, one) && Indexes(ch, two)
    ensures SameOrders(ch, one, two) <==> TiesAgree(ch, one, two)
  {
    if TiesAgree(ch, one, two) {
      forall priorities, x, y
        | IsBuildOrder(Ranked(ch, priorities, one), x) && IsBuildOrder(Ranked(ch, priorities, two), y)
        ensures x == y
      {
        RankedAgree(ch, one, two, priorities);
        AgreeingTiesSameOrder(Ranked(ch, priorities, one), Ranked(ch, priorities, two), x, y);
      }
    } else {
      var a, b :| Unrelated(ch, a, b) && !(one[a] < one[b] <==> two[a] < two[b]);
      SelfLeads(ch, a);
      if one[a] < one[b] {
        var p, x, y := DisagreeingTiesDiffer(ch, one, two, a, b);
      } else {
        var p, x, y := DisagreeingTiesDiffer(ch, one, two, b, a);
      }
    }
  }

  lemma SelfLeads(ch: Chain, a: Name)
    requires a in ch.dict
    ensures Leads(ch, a, a)
  {
    assert Trail(ch, [a]);
  }
}
