/** The library's sort: a stable insertion sort by any total order. */
module Sorting {

  ghost predicate Total<T(!new)>(le: (T, T) -> bool) {
    && (forall x, y :: le(x, y) || le(y, x))
    && (forall x, y, z :: le(x, y) && le(y, z) ==> le(x, z))
  }

  predicate InOrder<T>(xs: seq<T>, le: (T, T) -> bool) {
    forall i, j :: 0 <= i < j < |xs| ==> le(xs[i], xs[j])
  }

  function Insert<T>(x: T, xs: seq<T>, le: (T, T) -> bool): seq<T> {
    if xs == [] || le(x, xs[0]) then [x] + xs else [xs[0]] + Insert(x, xs[1..], le)
  }

  function Sort<T>(xs: seq<T>, le: (T, T) -> bool): seq<T> {
    if xs == [] then [] else Insert(xs[0], Sort(xs[1..], le), le)
  }

  lemma {:induction false} InsertSorts<T(!new)>(x: T, xs: seq<T>, le: (T, T) -> bool)
    requires Total(le) && InOrder(xs, le)
    ensures InOrder(Insert(x, xs, le), le) && multiset(Insert(x, xs, le)) == multiset(xs) + multiset{x}
    ensures |Insert(x, xs, le)| == |xs| + 1
  {
    if xs == [] || le(x, xs[0]) {
      InFront(x, xs, le);
    } else {
      var rest := Insert(x, xs[1..], le);
      assert xs == [xs[0]] + xs[1..];
      InsertSorts(x, xs[1..], le);
      forall y | y in rest ensures le(xs[0], y) {
        assert y in multiset(rest);
        if y != x {
          assert y in multiset(xs[1..]);
          var k :| 0 <= k < |xs[1..]| && xs[1..][k] == y;
          assert le(xs[0], xs[k + 1]);
        }
      }
      hide Insert, Total;
      InFrontOfAll(xs[0], rest, le);
    }
  }

  lemma InFront<T(!new)>(x: T, xs: seq<T>, le: (T, T) -> bool)
    requires Total(le) && InOrder(xs, le) && (xs != [] ==> le(x, xs[0]))
    ensures InOrder([x] + xs, le)
  {
    forall y | y in xs ensures le(x, y) {
      var k :| 0 <= k < |xs| && xs[k] == y;
      assert k > 0 ==> le(xs[0], xs[k]);
    }
    InFrontOfAll(x, xs, le);
  }

  lemma InFrontOfAll<T(!new)>(x: T, xs: seq<T>, le: (T, T) -> bool)
    requires InOrder(xs, le) && forall y :: y in xs ==> le(x, y)
    ensures InOrder([x] + xs, le)
  {
    var all := [x] + xs;
    forall i, j | 0 <= i < j < |all| ensures le(all[i], all[j]) {
      assert all[j] == xs[j - 1];
      if i > 0 { assert all[i] == xs[i - 1]; }
    }
  }

  lemma {:induction false} SortSorts<T(!new)>(xs: seq<T>, le: (T, T) -> bool)
    requires Total(le)
    ensures InOrder(Sort(xs, le), le) && multiset(Sort(xs, le)) == multiset(xs) && |Sort(xs, le)| == |xs|
  {
    if xs != [] {
      SortSorts(xs[1..], le);
      InsertSorts(xs[0], Sort(xs[1..], le), le);
      assert xs == [xs[0]] + xs[1..];
    }
  }

  predicate AtMost(x: int, y: int) { x <= y }

  lemma AtMostIsTotal()
    ensures Total(AtMost)
  {}

  predicate NoDup<T(==)>(xs: seq<T>) {
    forall i, j :: 0 <= i < j < |xs| ==> xs[i] != xs[j]
  }

  lemma {:induction false} CountOnce<T>(xs: seq<T>, x: T)
    requires NoDup(xs)
    ensures multiset(xs)[x] <= 1
  {
    if xs != [] {
      CountOnce(xs[1..], x);
      assert xs == [xs[0]] + xs[1..];
      if xs[0] == x { assert x !in xs[1..]; }
    }
  }

  lemma CountTwice<T>(xs: seq<T>, i: nat, j: nat)
    requires i < j < |xs| && xs[i] == xs[j]
    ensures multiset(xs)[xs[i]] >= 2
  {
    assert xs == xs[..j] + [xs[j]] + xs[j + 1..];
    assert xs[i] == xs[..j][i];
    assert xs[i] in multiset(xs[..j]);
  }

  /** A rearrangement of distinct elements is distinct. */
  lemma PermutationKeeps<T>(xs: seq<T>, ys: seq<T>)
    requires NoDup(xs) && multiset(xs) == multiset(ys)
    ensures NoDup(ys) && |ys| == |xs| && forall y :: y in ys ==> y in xs
  {
    forall i, j | 0 <= i < j < |ys| ensures ys[i] != ys[j] {
      CountOnce(xs, ys[i]);
      if ys[i] == ys[j] { CountTwice(ys, i, j); }
    }
    forall y | y in ys ensures y in xs { assert y in multiset(ys); }
    assert |xs| == |multiset(xs)| && |ys| == |multiset(ys)|;
  }
}
