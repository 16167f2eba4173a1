/** The library's binary searches, by their specification. */
module Bisect {

  predicate Ascending(s: seq<int>) {
    forall i, j :: 0 <= i < j < |s| ==> s[i] <= s[j]
  }

  predicate Strict(s: seq<int>) {
    forall i, j :: 0 <= i < j < |s| ==> s[i] < s[j]
  }

  /** `bisect_left`: how many leading elements are below `x`. */
  function BisectLeft(s: seq<int>, x: int): (i: nat)
    ensures i <= |s| && (forall j :: 0 <= j < i ==> s[j] < x) && (i < |s| ==> s[i] >= x)
  {
    if s == [] || s[0] >= x then 0 else 1 + BisectLeft(s[1..], x)
  }

  /** `bisect_right`: how many leading elements are at most `x`. */
  function BisectRight(s: seq<int>, x: int): (i: nat)
    ensures i <= |s| && (forall j :: 0 <= j < i ==> s[j] <= x) && (i < |s| ==> s[i] > x)
  {
    if s == [] || s[0] > x then 0 else 1 + BisectRight(s[1..], x)
  }

  /** On an ascending list everything from the cut on is on the other side. */
  lemma LeftRest(s: seq<int>, x: int)
    requires Ascending(s)
    ensures forall j :: BisectLeft(s, x) <= j < |s| ==> s[j] >= x
  {}

  lemma RightRest(s: seq<int>, x: int)
    requires Ascending(s)
    ensures forall j :: BisectRight(s, x) <= j < |s| ==> s[j] > x
  {}

  /** The cut is the only index with its two neighbours on the right sides. */
  lemma LeftUnique(s: seq<int>, x: int, i: nat)
    requires i <= |s| && (i > 0 ==> s[i - 1] < x) && (i < |s| ==> s[i] >= x) && Ascending(s)
    ensures i == BisectLeft(s, x)
  {
    var k := BisectLeft(s, x);
    assert forall j :: 0 <= j < i ==> s[j] < x;
    assert forall j :: 0 <= j < k ==> s[j] < x;
  }
}
