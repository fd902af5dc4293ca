/** Small definitions shared by every model in the project. */
module Basics {
  datatype Option<+T> = None | Some(value: T)

  ghost predicate NoDup<T>(xs: seq<T>) {
    forall i, j :: 0 <= i < j < |xs| ==> xs[i] != xs[j]
  }

  /** A sequence without repetitions is no longer than any set holding its elements. */
  lemma {:induction false} NoDupBound<T>(xs: seq<T>, s: set<T>)
    requires NoDup(xs)
    requires forall x :: x in xs ==> x in s
    ensures |xs| <= |s|
  {
    if xs != [] {
      var last := xs[|xs| - 1];
      NoDupBound(xs[..|xs| - 1], s - {last});
    }
  }

  /** The position of the first occurrence. */
  ghost function IndexOf<T>(xs: seq<T>, x: T): (i: nat)
    requires x in xs
    ensures i < |xs| && xs[i] == x
    ensures forall j :: 0 <= j < i ==> xs[j] != x
  {
    if xs[0] == x then 0 else 1 + IndexOf(xs[1..], x)
  }

  ghost function Position<T>(xs: seq<T>): T -> int {
    x => if x in xs then IndexOf(xs, x) else -1
  }

  /** What a list that only grows at its end has gained. */
  function Added<T>(before: seq<T>, after: seq<T>): seq<T> {
    if |before| <= |after| then after[|before|..] else []
  }

  lemma AddedNothing<T>(xs: seq<T>)
    ensures Added(xs, xs) == []
  {
  }

  lemma AddedAfterOne<T>(before: seq<T>, x: T, after: seq<T>)
    requires before + [x] <= after
    ensures before <= after && Added(before, after) == [x] + Added(before + [x], after)
  {
    assert after[|before|] == (before + [x])[|before|] == x;
    assert before == (before + [x])[..|before|] == after[..|before|];
  }

  /** x stands before y in the list. */
  ghost predicate Ahead<T>(xs: seq<T>, x: T, y: T) {
    exists a, b :: 0 <= a < b < |xs| && xs[a] == x && xs[b] == y
  }

  lemma AheadLater<T>(xs: seq<T>, x: T, y: T)
    requires xs != [] && Ahead(xs[1..], x, y)
    ensures Ahead(xs, x, y)
  {
    var a, b :| 0 <= a < b < |xs| - 1 && xs[1..][a] == x && xs[1..][b] == y;
    assert xs[a + 1] == x && xs[b + 1] == y;
  }

  lemma AheadNow<T>(xs: seq<T>, y: T)
    requires xs != [] && y in xs[1..]
    ensures Ahead(xs, xs[0], y)
  {
    var b :| 0 <= b < |xs| - 1 && xs[1..][b] == y;
    assert xs[b + 1] == y;
  }

  /** These elements of a list stand in the order of the list. */
  ghost predicate InListOrder<T>(xs: seq<T>, some: seq<T>) {
    && (forall k :: 0 <= k < |some| ==> some[k] in xs)
    && (forall j, k :: 0 <= j < k < |some| ==> Ahead(xs, some[j], some[k]))
  }

  lemma OrderLater<T>(xs: seq<T>, some: seq<T>)
    requires xs != [] && InListOrder(xs[1..], some)
    ensures InListOrder(xs, some)
  {
    forall j, k | 0 <= j < k < |some| ensures Ahead(xs, some[j], some[k]) {
      AheadLater(xs, some[j], some[k]);
    }
  }

  lemma OrderNow<T>(xs: seq<T>, some: seq<T>)
    requires xs != [] && InListOrder(xs[1..], some)
    ensures InListOrder(xs, [xs[0]] + some)
  {
    OrderLater(xs, some);
    var more := [xs[0]] + some;
    forall j, k | 0 <= j < k < |more| ensures Ahead(xs, more[j], more[k]) {
      assert more[k] == some[k - 1];
      if j == 0 {
        AheadNow(xs, more[k]);
      } else {
        assert more[j] == some[j - 1];
      }
    }
  }

  lemma HasElement<T>(xs: seq<T>)
    ensures xs == [] || exists x :: x in xs
  {
    if xs != [] {
      assert xs[0] in xs;
    }
  }

  lemma TakeOneMore<T>(xs: seq<T>, i: nat)
    requires i < |xs|
    ensures xs[..i + 1] == xs[..i] + [xs[i]]
  {
  }

  lemma NoDupAppend<T>(xs: seq<T>, x: T)
    requires NoDup(xs) && x !in xs
    ensures NoDup(xs + [x])
  {
  }

  lemma SetTwice<K, V>(m: map<K, V>, k: K, a: V, b: V)
    ensures m[k := a][k := b] == m[k := b]
  {
  }

  lemma PutTwice<T>(xs: seq<T>, i: nat, a: T, b: T)
    requires i < |xs|
    ensures xs[i := a][i := b] == xs[i := b]
  {
  }

  lemma Regroup<T>(a: seq<T>, b: seq<T>, c: seq<T>)
    ensures (a + b) + c == a + (b + c)
  {
  }
}
