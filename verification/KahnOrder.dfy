/** The build order printed by bin_priv/obt.dep.status.py: Kahn's algorithm with priorities. */
module KahnOrder {
  import opened Basics
  import opened StableSort
  import opened PipelineModel

  /** The deps of a target, as a list and as a dictionary, with the index each was given on discovery. */
  datatype Chain = Chain(list: seq<Name>, dict: map<Name, Provider>, topoIndex: map<Name, int>)
  {
    predicate Valid() {
      && (forall i, j :: 0 <= i < j < |list| ==> list[i] != list[j])
      && (forall i :: 0 <= i < |list| ==> list[i] in dict)
      && (forall n :: n in dict ==> n in list && n in topoIndex)
    }

    predicate Distinct() {
      forall m, n ::
        m in dict && n in dict && m in topoIndex && n in topoIndex && topoIndex[m] == topoIndex[n] ==> m == n
    }

    /** Prereqs outside the chain are ignored. */
    ghost predicate Needs(n: Name, m: Name) {
      n in dict && m in dict && Some(m) in dict[n].required
    }
  }

  function OrderKey(ch: Chain): Name -> Key {
    n => Key(if n in ch.dict then -ch.dict[n].priority else 0, if n in ch.topoIndex then ch.topoIndex[n] else 0)
  }

  // ---- what a build order is ----

  ghost predicate AllEmitted(ch: Chain, n: Name, emitted: seq<Name>) {
    forall m :: ch.Needs(n, m) ==> m in emitted
  }

  ghost predicate Available(ch: Chain, n: Name, emitted: seq<Name>) {
    n in ch.dict && n !in emitted && AllEmitted(ch, n, emitted)
  }

  /** Each step emits a dep that is available then, and none that is available has a smaller key. */
  ghost predicate GreedyStep(ch: Chain, order: seq<Name>, i: nat)
    requires i < |order|
  {
    && Available(ch, order[i], order[..i])
    && forall n :: Available(ch, n, order[..i]) ==> !Less(OrderKey(ch)(n), OrderKey(ch)(order[i]))
  }

  ghost predicate Greedy(ch: Chain, order: seq<Name>) {
    forall i :: 0 <= i < |order| ==> GreedyStep(ch, order, i)
  }

  /** A greedy sequence that cannot be continued. */
  ghost predicate IsBuildOrder(ch: Chain, order: seq<Name>) {
    Greedy(ch, order) && forall n :: !Available(ch, n, order)
  }

  lemma GreedyExtends(ch: Chain, order: seq<Name>, n: Name)
    requires Greedy(ch, order) && Available(ch, n, order)
    requires forall m :: Available(ch, m, order) ==> !Less(OrderKey(ch)(m), OrderKey(ch)(n))
    ensures Greedy(ch, order + [n])
  {
    var longer := order + [n];
    forall i | 0 <= i < |longer| ensures GreedyStep(ch, longer, i) {
      if i < |order| {
        assert GreedyStep(ch, order, i) && longer[..i] == order[..i];
      } else {
        assert longer[..i] == order;
      }
    }
  }

  // ---- the algorithm ----

  function InChain(ch: Chain, required: seq<Option<Name>>): seq<Name> {
    if required == [] then []
    else
      (if required[0].Some? && required[0].value in ch.dict then [required[0].value] else [])
      + InChain(ch, required[1..])
  }

  lemma {:induction false} InChainHas(ch: Chain, required: seq<Option<Name>>, m: Name)
    ensures m in InChain(ch, required) <==> m in ch.dict && Some(m) in required
  {
    if required != [] {
      InChainHas(ch, required[1..], m);
      assert Some(m) in required <==> required[0] == Some(m) || Some(m) in required[1..];
    }
  }

  /** The occurrences in the list that are not in the set: the indegree. */
  function Missing(prereqs: seq<Name>, done: set<Name>): nat {
    if prereqs == [] then 0
    else (if prereqs[0] in done then 0 else 1) + Missing(prereqs[1..], done)
  }

  lemma {:induction false} MissingZero(prereqs: seq<Name>, done: set<Name>)
    ensures Missing(prereqs, done) == 0 <==> forall m :: m in prereqs ==> m in done
    ensures done == {} ==> Missing(prereqs, done) == |prereqs|
  {
    if prereqs != [] {
      MissingZero(prereqs[1..], done);
      assert forall m :: m in prereqs <==> m == prereqs[0] || m in prereqs[1..];
    }
  }

  lemma {:induction false} MissingAfter(prereqs: seq<Name>, done: set<Name>, p: Name)
    requires p !in done
    ensures Missing(prereqs, done + {p}) + multiset(prereqs)[p] == Missing(prereqs, done)
  {
    if prereqs != [] {
      MissingAfter(prereqs[1..], done, p);
      assert prereqs == [prereqs[0]] + prereqs[1..];
    }
  }

  function Prereqs(ch: Chain, n: Name): seq<Name>
    requires n in ch.dict
  {
    InChain(ch, ch.dict[n].required)
  }

  function Lookup(d: map<Name, seq<Name>>, p: Name): seq<Name> {
    if p in d then d[p] else []
  }

  /** Each dep's counter is its number of unemitted prereqs, plus the decrements still owed to it. */
  ghost predicate Counts(ch: Chain, indeg: map<Name, nat>, done: set<Name>, owed: multiset<Name>) {
    && indeg.Keys == ch.dict.Keys
    && forall n :: n in ch.dict ==> indeg[n] == Missing(Prereqs(ch, n), done) + owed[n]
  }

  ghost predicate Frontier(ch: Chain, indeg: map<Name, nat>, ready: seq<Name>, done: set<Name>)
    requires indeg.Keys == ch.dict.Keys
  {
    && NoDup(ready)
    && (forall n :: n in ready <==> n in ch.dict && n !in done && indeg[n] == 0)
    && (forall n :: n in done ==> n in ch.dict && indeg[n] == 0)
  }

  /** How often n is listed among the dependents of p. */
  ghost function Listed(dependents: map<Name, seq<Name>>, p: Name, n: Name): nat {
    multiset(Lookup(dependents, p))[n]
  }

  /** dependents lists each dep once for every time it names p as a prereq. */
  ghost predicate Inverted(ch: Chain, dependents: map<Name, seq<Name>>) {
    forall p, n :: n in ch.dict ==> Listed(dependents, p, n) == multiset(Prereqs(ch, n))[p]
  }

  ghost predicate Within(ch: Chain, dependents: map<Name, seq<Name>>) {
    forall p, n :: n in Lookup(dependents, p) ==> n in ch.dict
  }

  lemma ListOneMore(ch: Chain, dependents: map<Name, seq<Name>>, p: Name, n: Name)
    requires Within(ch, dependents) && n in ch.dict
    ensures var more := dependents[p := Lookup(dependents, p) + [n]];
      && Within(ch, more)
      && forall q, x :: Listed(more, q, x) == Listed(dependents, q, x) + if q == p && x == n then 1 else 0
  {
    var more := dependents[p := Lookup(dependents, p) + [n]];
    forall q, x | x in Lookup(more, q) ensures x in ch.dict {
      assert q != p ==> Lookup(more, q) == Lookup(dependents, q);
    }
    forall q, x ensures Listed(more, q, x) == Listed(dependents, q, x) + if q == p && x == n then 1 else 0 {
      assert q != p ==> Lookup(more, q) == Lookup(dependents, q);
    }
  }

  method AddDependent(ghost ch: Chain, dependents: map<Name, seq<Name>>, prereqs: seq<Name>, n: Name)
      returns (more: map<Name, seq<Name>>)
    requires n in ch.dict && Within(ch, dependents)
    ensures Within(ch, more)
    ensures forall p, x :: Listed(more, p, x) == Listed(dependents, p, x) + if x == n then multiset(prereqs)[p] else 0
  {
    more := dependents;
    for j := 0 to |prereqs|
      invariant Within(ch, more)
      invariant forall p, x ::
        Listed(more, p, x) == Listed(dependents, p, x) + if x == n then multiset(prereqs[..j])[p] else 0
    {
      assert prereqs[..j + 1] == prereqs[..j] + [prereqs[j]];
      ListOneMore(ch, more, prereqs[j], n);
      more := more[prereqs[j] := Lookup(more, prereqs[j]) + [n]];
    }
    assert prereqs[..|prereqs|] == prereqs;
  }

  /** The first i deps of the list have been counted, and listed with their prereqs. */
  ghost predicate Counted(ch: Chain, indeg: map<Name, nat>, dependents: map<Name, seq<Name>>, seen: seq<Name>) {
    && (forall n :: n in indeg <==> n in seen)
    && (forall n :: n in indeg ==> n in ch.dict && indeg[n] == |Prereqs(ch, n)|)
    && (forall p, n :: n in ch.dict ==>
          Listed(dependents, p, n) == if n in seen then multiset(Prereqs(ch, n))[p] else 0)
  }

  lemma CountedOneMore(ch: Chain, indeg: map<Name, nat>, dependents: map<Name, seq<Name>>,
      more: map<Name, seq<Name>>, seen: seq<Name>, n: Name)
    requires Counted(ch, indeg, dependents, seen) && n in ch.dict && n !in seen
    requires forall p, x :: Listed(more, p, x) ==
               Listed(dependents, p, x) + if x == n then multiset(Prereqs(ch, n))[p] else 0
    ensures Counted(ch, indeg[n := |Prereqs(ch, n)|], more, seen + [n])
  {
  }

  lemma AllCounted(ch: Chain, indeg: map<Name, nat>, dependents: map<Name, seq<Name>>)
    requires ch.Valid() && Counted(ch, indeg, dependents, ch.list)
    ensures Counts(ch, indeg, {}, multiset{}) && Inverted(ch, dependents)
  {
    forall n | n in ch.dict ensures n in indeg && indeg[n] == Missing(Prereqs(ch, n), {}) {
      MissingZero(Prereqs(ch, n), {});
    }
  }

  method CountPrereqs(ch: Chain) returns (indeg: map<Name, nat>, dependents: map<Name, seq<Name>>)
    requires ch.Valid()
    ensures Counts(ch, indeg, {}, multiset{}) && Inverted(ch, dependents) && Within(ch, dependents)
  {
    indeg, dependents := map[], map[];
    for i := 0 to |ch.list|
      invariant Counted(ch, indeg, dependents, ch.list[..i]) && Within(ch, dependents)
    {
      var n := ch.list[i];
      var prereqs := Prereqs(ch, n);
      TakeOneMore(ch.list, i);
      ghost var before := dependents;
      dependents := AddDependent(ch, dependents, prereqs, n);
      CountedOneMore(ch, indeg, before, dependents, ch.list[..i], n);
      indeg := indeg[n := |prereqs|];
    }
    assert ch.list[..|ch.list|] == ch.list;
    AllCounted(ch, indeg, dependents);
  }

  lemma OwedOne(ch: Chain, dn: Name, owed: multiset<Name>, indeg: map<Name, nat>, done: set<Name>)
    requires dn in ch.dict && Counts(ch, indeg, done, owed + multiset{dn})
    ensures indeg[dn] > 0 && Counts(ch, indeg[dn := indeg[dn] - 1], done, owed)
  {
    assert (owed + multiset{dn})[dn] == owed[dn] + 1;
    forall n | n in ch.dict && n != dn ensures (owed + multiset{dn})[n] == owed[n] {}
  }

  lemma FrontierGrows(ch: Chain, dn: Name, indeg: map<Name, nat>, ready: seq<Name>, done: set<Name>)
    requires indeg.Keys == ch.dict.Keys && dn in ch.dict && indeg[dn] > 0 && Frontier(ch, indeg, ready, done)
    ensures var indeg' := indeg[dn := indeg[dn] - 1];
      indeg'.Keys == ch.dict.Keys && Frontier(ch, indeg', if indeg'[dn] == 0 then ready + [dn] else ready, done)
  {
    assert dn !in done && dn !in ready;
    NoDupAppend(ready, dn);
  }

  lemma ReleaseOne(ch: Chain, dn: Name, owed: multiset<Name>, indeg: map<Name, nat>, ready: seq<Name>, done: set<Name>)
    requires dn in ch.dict && Counts(ch, indeg, done, owed + multiset{dn}) && Frontier(ch, indeg, ready, done)
    ensures indeg[dn] > 0
    ensures var indeg' := indeg[dn := indeg[dn] - 1];
      Counts(ch, indeg', done, owed) && Frontier(ch, indeg', if indeg'[dn] == 0 then ready + [dn] else ready, done)
  {
    OwedOne(ch, dn, owed, indeg, done);
    FrontierGrows(ch, dn, indeg, ready, done);
  }

  /** Takes one from the counter of each dependent; those that reach zero become ready. */
  method Release(ghost ch: Chain, names: seq<Name>, indeg: map<Name, nat>, ready: seq<Name>, ghost done: set<Name>)
      returns (indeg': map<Name, nat>, ready': seq<Name>)
    requires (forall n :: n in names ==> n in ch.dict) && Counts(ch, indeg, done, multiset(names))
    requires Frontier(ch, indeg, ready, done)
    ensures Counts(ch, indeg', done, multiset{}) && Frontier(ch, indeg', ready', done)
  {
    indeg', ready' := indeg, ready;
    for k := 0 to |names|
      invariant Counts(ch, indeg', done, multiset(names[k..])) && Frontier(ch, indeg', ready', done)
    {
      var dn := names[k];
      assert names[k..] == [dn] + names[k + 1..];
      ReleaseOne(ch, dn, multiset(names[k + 1..]), indeg', ready', done);
      indeg' := indeg'[dn := indeg'[dn] - 1];
      if indeg'[dn] == 0 {
        ready' := ready' + [dn];
      }
    }
  }

  /** Emitting a ready dep owes one decrement to each of its dependents. */
  lemma EmitOne(ch: Chain, dependents: map<Name, seq<Name>>, indeg: map<Name, nat>, ready: seq<Name>, done: set<Name>)
    requires Counts(ch, indeg, done, multiset{}) && Frontier(ch, indeg, ready, done) && ready != []
    requires Inverted(ch, dependents)
    ensures Counts(ch, indeg, done + {ready[0]}, multiset(Lookup(dependents, ready[0])))
    ensures Frontier(ch, indeg, ready[1..], done + {ready[0]})
  {
    var p := ready[0];
    assert p in ready;
    forall n | n in ch.dict
      ensures indeg[n] == Missing(Prereqs(ch, n), done + {p}) + multiset(Lookup(dependents, p))[n]
    {
      MissingAfter(Prereqs(ch, n), done, p);
      assert Listed(dependents, p, n) == multiset(Prereqs(ch, n))[p];
    }
    assert forall n :: n in ready <==> n == p || n in ready[1..];
  }

  lemma FrontierIsAvailable(ch: Chain, indeg: map<Name, nat>, ready: seq<Name>, order: seq<Name>, n: Name)
    requires Counts(ch, indeg, Elements(order), multiset{}) && Frontier(ch, indeg, ready, Elements(order))
    ensures n in ready <==> Available(ch, n, order)
  {
    if n in ch.dict {
      MissingZero(Prereqs(ch, n), Elements(order));
      forall m ensures m in Prereqs(ch, n) <==> ch.Needs(n, m) {
        InChainHas(ch, ch.dict[n].required, m);
      }
    }
  }

  ghost function Elements(xs: seq<Name>): set<Name> {
    set x | x in xs
  }

  /** After the sort the first ready dep is a best available one. */
  lemma SortedHeadIsBest(ch: Chain, indeg: map<Name, nat>, ready: seq<Name>, order: seq<Name>)
    requires Counts(ch, indeg, Elements(order), multiset{})
    requires Frontier(ch, indeg, ready, Elements(order)) && ready != []
    requires Greedy(ch, order)
    ensures var sorted := SortBy(ready, OrderKey(ch));
      && sorted != [] && Frontier(ch, indeg, sorted, Elements(order))
      && sorted[0] in ch.dict && sorted[0] !in order && Greedy(ch, order + [sorted[0]])
  {
    var sorted := SortBy(ready, OrderKey(ch));
    SortByKeeps(ready, OrderKey(ch));
    SortByIsStable(ready, OrderKey(ch));
    NoDupSorted(ready, sorted);
    FrontierIsAvailable(ch, indeg, ready, order, sorted[0]);
    forall n | Available(ch, n, order) ensures !Less(OrderKey(ch)(n), OrderKey(ch)(sorted[0])) {
      FrontierIsAvailable(ch, indeg, ready, order, n);
      assert n in sorted;
    }
    GreedyExtends(ch, order, sorted[0]);
  }

  method FirstReady(ch: Chain, indeg: map<Name, nat>) returns (ready: seq<Name>)
    requires ch.Valid() && indeg.Keys == ch.dict.Keys
    ensures Frontier(ch, indeg, ready, {})
  {
    ready := [];
    for i := 0 to |ch.list|
      invariant NoDup(ready)
      invariant forall n :: n in ready <==> n in ch.list[..i] && indeg[n] == 0
    {
      assert ch.list[..i + 1] == ch.list[..i] + [ch.list[i]] && ch.list[i] !in ch.list[..i];
      if indeg[ch.list[i]] == 0 {
        ready := ready + [ch.list[i]];
      }
    }
    assert ch.list[..|ch.list|] == ch.list;
  }

  method BuildOrder(ch: Chain) returns (order: seq<Name>)
    requires ch.Valid()
    ensures IsBuildOrder(ch, order)
  {
    var indeg, dependents := CountPrereqs(ch);
    var ready := FirstReady(ch, indeg);
    order := [];
    ghost var done: set<Name> := {};
    assert done == Elements(order);
    while ready != []
      invariant Counts(ch, indeg, done, multiset{}) && Frontier(ch, indeg, ready, done)
      invariant Greedy(ch, order) && done == Elements(order)
      decreases ch.dict.Keys - done
    {
      SortedHeadIsBest(ch, indeg, ready, order);
      ready := SortBy(ready, OrderKey(ch));
      var p := ready[0];
      EmitOne(ch, dependents, indeg, ready, done);
      ElementsAppend(order, p);
      order, done := order + [p], done + {p};
      indeg, ready := Release(ch, Lookup(dependents, p), indeg, ready[1..], done);
    }
    NothingLeft(ch, indeg, order);
  }

  lemma ElementsAppend(xs: seq<Name>, x: Name)
    ensures Elements(xs + [x]) == Elements(xs) + {x}
  {
  }

  lemma NothingLeft(ch: Chain, indeg: map<Name, nat>, order: seq<Name>)
    requires Counts(ch, indeg, Elements(order), multiset{}) && Frontier(ch, indeg, [], Elements(order))
    ensures forall n :: !Available(ch, n, order)
  {
    forall n ensures !Available(ch, n, order) {
      FrontierIsAvailable(ch, indeg, [], order, n);
    }
  }

  lemma NoDupSorted(xs: seq<Name>, ys: seq<Name>)
    requires NoDup(xs) && multiset(xs) == multiset(ys)
    ensures NoDup(ys)
  {
    if i, j :| 0 <= i < j < |ys| && ys[i] == ys[j] {
      assert multiset(ys)[ys[i]] >= 2 by {
        assert ys == ys[..j] + [ys[j]] + ys[j + 1..];
        assert ys[i] in multiset(ys[..j]);
      }
      assert multiset(xs)[ys[i]] >= 2;
      OnceOnly(xs, ys[i]);
    }
  }

  lemma {:induction false} OnceOnly(xs: seq<Name>, x: Name)
    requires NoDup(xs)
    ensures multiset(xs)[x] <= 1
  {
    if xs != [] {
      assert xs == [xs[0]] + xs[1..];
      OnceOnly(xs[1..], x);
      assert xs[0] == x ==> x !in multiset(xs[1..]);
    }
  }
}
