/** run.php's `recommendItemForUser`: a left-to-right scan for the item whose
    difficulty is closest to an ability, keeping the first of equally close
    items because the running best changes only on a strict improvement. */
module Recommender {

  /** The running minimum distance of the scan: PHP's INF before the first
      item, a finite distance afterwards. */
  datatype Bound = Infinite | Finite(value: real)

  /** `d < bound`, with every real below INF. */
  predicate Below(d: real, bound: Bound) {
    match bound
    case Infinite => true
    case Finite(v) => d < v
  }

  /** PHP's `abs` on a float. */
  function Abs(x: real): real {
    if x < 0.0 then -x else x
  }

  /** `r` is an index of `items` at minimum distance from `theta`, and every
      earlier index is strictly farther away. */
  ghost predicate IsFirstNearest(theta: real, items: seq<real>, r: nat) {
    && r < |items|
    && (forall k :: 0 <= k < |items| ==> Abs(theta - items[r]) <= Abs(theta - items[k]))
    && (forall k :: 0 <= k < r ==> Abs(theta - items[r]) < Abs(theta - items[k]))
  }

  /** The scan of run.php. On an empty list it returns its initial index 0. */
  method RecommendItemForUser(theta: real, items: seq<real>) returns (closestItem: nat)
    ensures items == [] ==> closestItem == 0
    ensures items != [] ==> IsFirstNearest(theta, items, closestItem)
  {
    closestItem := 0;
    var minDiff := Infinite;
    for id := 0 to |items|
      invariant id == 0 ==> closestItem == 0 && minDiff == Infinite
      invariant id > 0 ==> closestItem < id && minDiff == Finite(Abs(theta - items[closestItem]))
      invariant forall k :: 0 <= k < id ==> Abs(theta - items[closestItem]) <= Abs(theta - items[k])
      invariant forall k :: 0 <= k < closestItem ==> Abs(theta - items[closestItem]) < Abs(theta - items[k])
    {
      var diff := Abs(theta - items[id]);
      if Below(diff, minDiff) {
        minDiff := Finite(diff);
        closestItem := id;
      }
    }
  }

  /** The postcondition of the scan fixes its result: at most one index is
      the first nearest. */
  lemma FirstNearestUnique(theta: real, items: seq<real>, r1: nat, r2: nat)
    requires IsFirstNearest(theta, items, r1) && IsFirstNearest(theta, items, r2)
    ensures r1 == r2
  {
    assert Abs(theta - items[r1]) == Abs(theta - items[r2]);
  }

  /** An exact match wins when no earlier item matches exactly. */
  lemma ExactMatchWins(theta: real, items: seq<real>, k: nat, r: nat)
    requires k < |items| && items[k] == theta
    requires forall j :: 0 <= j < k ==> items[j] != theta
    requires IsFirstNearest(theta, items, r)
    ensures r == k
  {
    assert Abs(theta - items[r]) <= Abs(theta - items[k]) == 0.0;
  }

  /** On a tie the earlier index wins: 0.5 is equally far from 0.0 and 1.0,
      and the result is 0. */
  lemma TieGoesToEarlierItem(r: nat)
    requires IsFirstNearest(0.5, [0.0, 1.0], r)
    ensures r == 0
  {
    assert Abs(0.5 - [0.0, 1.0][0]) == 0.5 == Abs(0.5 - [0.0, 1.0][1]);
  }
}
