/** Python's `sorted`: a stable sort by a two-part key. */
module StableSort {
  datatype Key = Key(major: int, minor: int)

  predicate Less(a: Key, b: Key) {
    a.major < b.major || (a.major == b.major && a.minor < b.minor)
  }

  predicate Sorted<T(!new)>(xs: seq<T>, key: T -> Key) {
    forall i, j :: 0 <= i < j < |xs| ==> !Less(key(xs[j]), key(xs[i]))
  }

  /** Puts x before the first element that is not smaller. */
  function Insert<T>(x: T, xs: seq<T>, key: T -> Key): (r: seq<T>)
    ensures multiset(r) == multiset(xs) + multiset{x}
  {
    if xs == [] || !Less(key(xs[0]), key(x)) then
      [x] + xs
    else
      assert xs == [xs[0]] + xs[1..];
      [xs[0]] + Insert(x, xs[1..], key)
  }

  function SortBy<T>(xs: seq<T>, key: T -> Key): (r: seq<T>)
    ensures multiset(r) == multiset(xs)
  {
    if xs == [] then
      []
    else
      assert xs == [xs[0]] + xs[1..];
      Insert(xs[0], SortBy(xs[1..], key), key)
  }

  /** The elements whose key is k, in order. */
  function Tied<T>(xs: seq<T>, key: T -> Key, k: Key): seq<T> {
    if xs == [] then []
    else (if key(xs[0]) == k then [xs[0]] else []) + Tied(xs[1..], key, k)
  }

  lemma {:induction false} InsertSorted<T(!new)>(x: T, xs: seq<T>, key: T -> Key)
    requires Sorted(xs, key)
    ensures Sorted(Insert(x, xs, key), key)
  {
    if xs != [] && Less(key(xs[0]), key(x)) {
      InsertSorted(x, xs[1..], key);
      var r := Insert(x, xs[1..], key);
      forall y | y in r ensures !Less(key(y), key(xs[0])) {
        assert y in multiset(r);
        if y in xs[1..] {
          var i :| 0 <= i < |xs[1..]| && xs[1..][i] == y;
          assert xs[i + 1] == y;
        }
      }
    }
  }

  lemma {:induction false} InsertTied<T(!new)>(x: T, xs: seq<T>, key: T -> Key, k: Key)
    ensures Tied(Insert(x, xs, key), key, k) == (if key(x) == k then [x] else []) + Tied(xs, key, k)
  {
    if xs == [] || !Less(key(xs[0]), key(x)) {
      assert ([x] + xs)[1..] == xs;
    } else {
      InsertTied(x, xs[1..], key, k);
      assert ([xs[0]] + Insert(x, xs[1..], key))[1..] == Insert(x, xs[1..], key);
    }
  }

  /** The result is ordered, and elements with equal keys keep their order (and their number). */
  lemma {:induction false} SortByIsStable<T(!new)>(xs: seq<T>, key: T -> Key)
    ensures Sorted(SortBy(xs, key), key)
    ensures forall k :: Tied(SortBy(xs, key), key, k) == Tied(xs, key, k)
  {
    if xs != [] {
      SortByIsStable(xs[1..], key);
      InsertSorted(xs[0], SortBy(xs[1..], key), key);
      forall k ensures Tied(SortBy(xs, key), key, k) == Tied(xs, key, k) {
        InsertTied(xs[0], SortBy(xs[1..], key), key, k);
      }
    }
  }

  lemma SortByKeeps<T(!new)>(xs: seq<T>, key: T -> Key)
    ensures |SortBy(xs, key)| == |xs|
    ensures forall x :: x in SortBy(xs, key) <==> x in xs
  {
    assert |multiset(SortBy(xs, key))| == |multiset(xs)|;
    assert forall x :: x in SortBy(xs, key) <==> x in multiset(SortBy(xs, key));
    assert forall x :: x in xs <==> x in multiset(xs);
  }

  /** By key, and by position where the keys are equal. */
  predicate Before<T>(key: T -> Key, pos: T -> int, a: T, b: T) {
    Less(key(a), key(b)) || (key(a) == key(b) && pos(a) < pos(b))
  }

  ghost predicate Ordered<T>(xs: seq<T>, key: T -> Key, pos: T -> int) {
    forall i, j :: 0 <= i < j < |xs| ==> Before(key, pos, xs[i], xs[j])
  }

  lemma ConsOrdered<T(!new)>(x: T, xs: seq<T>, key: T -> Key, pos: T -> int)
    requires Ordered(xs, key, pos) && forall y :: y in xs ==> Before(key, pos, x, y)
    ensures Ordered([x] + xs, key, pos)
  {
  }

  lemma {:induction false} InsertOrdered<T(!new)>(x: T, xs: seq<T>, key: T -> Key, pos: T -> int)
    requires Ordered(xs, key, pos) && forall y :: y in xs ==> pos(x) < pos(y)
    ensures Ordered(Insert(x, xs, key), key, pos)
  {
    if xs != [] && Less(key(xs[0]), key(x)) {
      var r := Insert(x, xs[1..], key);
      InsertOrdered(x, xs[1..], key, pos);
      forall y | y in r ensures Before(key, pos, xs[0], y) {
        assert y in multiset(r);
      }
      ConsOrdered(xs[0], r, key, pos);
    } else {
      forall y | y in xs ensures Before(key, pos, x, y) {
        assert y == xs[0] || Before(key, pos, xs[0], y);
      }
      ConsOrdered(x, xs, key, pos);
    }
  }

  /** Sorting a list is ordering it by key and then by position. */
  lemma {:induction false} SortByOrdered<T(!new)>(xs: seq<T>, key: T -> Key, pos: T -> int)
    requires forall i, j :: 0 <= i < j < |xs| ==> pos(xs[i]) < pos(xs[j])
    ensures Ordered(SortBy(xs, key), key, pos)
  {
    if xs != [] {
      SortByOrdered(xs[1..], key, pos);
      var rest := xs[1..];
      var r := SortBy(rest, key);
      SortByKeeps(rest, key);
      forall y | y in r ensures pos(xs[0]) < pos(y) {
        assert y in rest;
        var i :| 0 <= i < |rest| && rest[i] == y;
        assert xs[i + 1] == y;
      }
      InsertOrdered(xs[0], r, key, pos);
    }
  }
}
