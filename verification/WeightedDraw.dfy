/** Weighted random choice by subtracting weights from a roll until it runs out. */
module WeightedDraw {

  predicate NonNegative(weights: seq<real>) { forall i :: 0 <= i < |weights| ==> weights[i] >= 0.0 }

  /** Sum of the first k weights. */
  function Prefix(weights: seq<real>, k: nat): (r: real)
    requires k <= |weights|
  {
    if k == 0 then 0.0 else Prefix(weights, k - 1) + weights[k - 1]
  }

  function Total(weights: seq<real>): (r: real) { Prefix(weights, |weights|) }

  /** The first index at which the roll is used up, or the number of weights when it never is. */
  ghost predicate IsPick(weights: seq<real>, roll: real, k: nat) {
    && k <= |weights|
    && (k < |weights| ==> roll <= Prefix(weights, k + 1))
    && (forall j :: 1 <= j <= k ==> roll > Prefix(weights, j))
  }

  lemma PickUnique(weights: seq<real>, roll: real, j: nat, k: nat)
    requires IsPick(weights, roll, j) && IsPick(weights, roll, k)
    ensures j == k
  {
  }

  /** The drawing loop; returns |weights| when the roll falls through. */
  method Draw(weights: seq<real>, roll: real) returns (k: nat)
    ensures IsPick(weights, roll, k)
  {
    var left := roll;
    for i := 0 to |weights|
      invariant left == roll - Prefix(weights, i)
      invariant forall j :: 1 <= j <= i ==> roll > Prefix(weights, j)
    {
      left := left - weights[i];
      if left <= 0.0 {
        return i;
      }
    }
    return |weights|;
  }

  lemma {:induction false} PrefixMonotone(weights: seq<real>, j: nat, k: nat)
    requires NonNegative(weights) && j <= k <= |weights|
    ensures 0.0 <= Prefix(weights, j) <= Prefix(weights, k)
  {
    if j < k {
      PrefixMonotone(weights, j, k - 1);
    } else if j > 0 {
      PrefixMonotone(weights, j - 1, k - 1);
    }
  }

  /** An index is drawn exactly on its own stretch of the roll: above the weights before it, up to and
      including its own. The first index also takes every roll at or below 0. */
  lemma PickIff(weights: seq<real>, roll: real, k: nat)
    requires NonNegative(weights) && k < |weights|
    ensures IsPick(weights, roll, k) <==>
            (k == 0 || Prefix(weights, k) < roll) && roll <= Prefix(weights, k) + weights[k]
  {
    assert Prefix(weights, k + 1) == Prefix(weights, k) + weights[k];
    if k > 0 && Prefix(weights, k) < roll {
      forall j | 1 <= j <= k ensures roll > Prefix(weights, j) {
        PrefixMonotone(weights, j, k);
      }
    }
  }

  /** The roll never falls through as long as it does not exceed the total. */
  lemma NeverFallsThrough(weights: seq<real>, roll: real, k: nat)
    requires weights != [] && roll <= Total(weights) && IsPick(weights, roll, k)
    ensures k < |weights|
  {
  }

  /** The roll a uniform draw r stands for. */
  function Roll(weights: seq<real>, r: real): (roll: real) { r * Total(weights) }

  lemma RollInRange(weights: seq<real>, r: real)
    requires NonNegative(weights) && 0.0 <= r < 1.0
    ensures 0.0 <= Roll(weights, r) <= Total(weights)
  {
    PrefixMonotone(weights, 0, |weights|);
    var t := Total(weights);
    assert t - r * t == (1.0 - r) * t;
    ProductNonNegative(r, t);
    ProductNonNegative(1.0 - r, t);
  }

  lemma ProductNonNegative(x: real, y: real)
    requires x >= 0.0 && y >= 0.0
    ensures x * y >= 0.0
  {
  }

  ghost predicate Possible(weights: seq<real>, k: nat) {
    exists r: real :: 0.0 <= r < 1.0 && IsPick(weights, Roll(weights, r), k)
  }

  /** Some draw picks an index exactly when its weight is positive or it comes first: a zero weight is
      never drawn, except that a roll of exactly 0 takes the first entry whatever its weight. */
  lemma PossibleIff(weights: seq<real>, k: nat)
    requires NonNegative(weights) && k < |weights|
    ensures Possible(weights, k) <==> weights[k] > 0.0 || k == 0
  {
    if weights[k] > 0.0 {
      MiddleDraw(weights, k);
    } else if k == 0 {
      PickIff(weights, 0.0, 0);
      PrefixMonotone(weights, 0, 1);
      assert Roll(weights, 0.0) == 0.0;
      assert IsPick(weights, Roll(weights, 0.0), 0);
    } else {
      forall r: real | 0.0 <= r < 1.0 ensures !IsPick(weights, Roll(weights, r), k) {
        PickIff(weights, Roll(weights, r), k);
      }
    }
  }

  lemma MiddleDraw(weights: seq<real>, k: nat)
    requires NonNegative(weights) && k < |weights| && weights[k] > 0.0
    ensures Possible(weights, k)
  {
    var t, mid := Total(weights), Prefix(weights, k) + weights[k] / 2.0;
    PrefixMonotone(weights, k + 1, |weights|);
    PrefixMonotone(weights, 0, k);
    assert Prefix(weights, k + 1) == Prefix(weights, k) + weights[k];
    assert 0.0 < mid < t;
    var r := mid / t;
    assert r * t == mid;
    BelowOne(mid, t);
    PickIff(weights, mid, k);
    assert Roll(weights, r) == mid;
    assert IsPick(weights, Roll(weights, r), k);
  }

  lemma BelowOne(x: real, t: real)
    requires 0.0 < x < t
    ensures 0.0 <= x / t < 1.0
  {
    var r := x / t;
    assert r * t == x;
    var a := 1.0 - r;
    assert a * t == t - x > 0.0;
    assert a <= 0.0 ==> a * t <= 0.0;
  }
}
