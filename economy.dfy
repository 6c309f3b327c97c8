/** The pure arithmetic of the economy: the rounded click yield and the
    production sum behind atoms-per-second. */
module Economy {
  import opened Entities

  datatype Option<T> = None | Some(value: T)

  /** The least integer not below `x`. */
  function Ceil(x: real): (c: int)
    ensures x <= c as real < x + 1.0
  {
    -((-x).Floor)
  }

  /** `r` has at most two fractional decimal digits. */
  predicate IsHundredth(r: real) {
    (r * 100.0).Floor as real == r * 100.0
  }

  /** Multiply by 100, take the ceiling, divide by 100. */
  function RoundUpHundredth(x: real): (r: real)
    ensures x <= r < x + 0.01
    ensures IsHundredth(r)
  {
    Ceil(x * 100.0) as real / 100.0
  }

  /** No multiple of 0.01 at or above `x` lies below `RoundUpHundredth(x)`:
      together with its ensures, the rounding is exactly the upward rounding. */
  lemma RoundUpHundredthIsLeast(x: real, k: int)
    requires x <= k as real / 100.0
    ensures RoundUpHundredth(x) <= k as real / 100.0
  {
    var y := x * 100.0;
    var c := Ceil(y);
    assert y <= k as real;
    assert c <= k;
    assert RoundUpHundredth(x) == c as real / 100.0;
  }

  /** The `totalAtomsPerClicks` getter: base click yield plus APS times the APS
      boost, rounded up to the next hundredth. */
  function ClickYield(atomsPerClicks: real, atomsPerSecond: real, apsBoost: real): (r: real)
    ensures atomsPerClicks + atomsPerSecond * apsBoost <= r
    ensures r < atomsPerClicks + atomsPerSecond * apsBoost + 0.01
    ensures IsHundredth(r)
  {
    RoundUpHundredth(atomsPerClicks + atomsPerSecond * apsBoost)
  }

  /** In the starting state (per-click 1, APS 0, boost 0) a click yields exactly 1. */
  lemma InitialClickYield()
    ensures ClickYield(1.0, 0.0, 0.0) == 1.0
  {
  }

  /** Reference definition: the ordinary sum, seeded with 0. */
  function Sum(xs: seq<real>): real {
    if xs == [] then 0.0 else xs[0] + Sum(xs[1..])
  }

  /** Reference definition: the total production of the buildings, unboosted. */
  function TotalRate(bs: seq<Building>): real {
    if bs == [] then 0.0 else bs[0].totalAtomPerSecond + TotalRate(bs[1..])
  }

  /** `buildings.map(b => b.totalAtomPerSecond * globalBoost)`. */
  function Scaled(bs: seq<Building>, globalBoost: real): (r: seq<real>)
    ensures |r| == |bs|
  {
    if bs == [] then [] else [bs[0].totalAtomPerSecond * globalBoost] + Scaled(bs[1..], globalBoost)
  }

  /** A left fold of `+` starting from `acc`. */
  function FoldAdd(acc: real, xs: seq<real>): real
    decreases xs
  {
    if xs == [] then acc else FoldAdd(acc + xs[0], xs[1..])
  }

  /** `xs.reduce((p, c) => p + c)` with no seed: it fails on an empty list and
      otherwise folds from the first element. */
  function Reduce(xs: seq<real>): (r: Option<real>)
    ensures r.Some? <==> |xs| > 0
  {
    if xs == [] then None else Some(FoldAdd(xs[0], xs[1..]))
  }

  lemma {:induction false} FoldAddIsSum(acc: real, xs: seq<real>)
    ensures FoldAdd(acc, xs) == acc + Sum(xs)
    decreases xs
  {
    if xs != [] {
      FoldAddIsSum(acc + xs[0], xs[1..]);
    }
  }

  /** The unseeded reduce, where it succeeds, is the seeded sum. */
  lemma ReduceIsSum(xs: seq<real>)
    requires |xs| > 0
    ensures Reduce(xs) == Some(Sum(xs))
  {
    FoldAddIsSum(xs[0], xs[1..]);
  }

  /** Scaling each building's rate scales the total. */
  lemma {:induction false} ScaledSum(bs: seq<Building>, globalBoost: real)
    ensures Sum(Scaled(bs, globalBoost)) == globalBoost * TotalRate(bs)
  {
    if bs != [] {
      ScaledSum(bs[1..], globalBoost);
      assert Scaled(bs, globalBoost)[1..] == Scaled(bs[1..], globalBoost);
    }
  }

  lemma {:induction false} TotalRateNonNegative(bs: seq<Building>)
    requires forall i :: 0 <= i < |bs| ==> bs[i].totalAtomPerSecond >= 0.0
    ensures TotalRate(bs) >= 0.0
  {
    if bs != [] {
      TotalRateNonNegative(bs[1..]);
    }
  }

  /** The value `calculateAPS` assigns: the boosted sum of the building rates plus
      the flat boost, or nothing when there are no buildings (the unseeded reduce
      throws). */
  function Aps(bs: seq<Building>, globalBoost: real, apsBoost: real): (r: Option<real>)
    ensures r.Some? <==> |bs| > 0
    ensures r.Some? ==> r.value == globalBoost * TotalRate(bs) + apsBoost
  {
    match Reduce(Scaled(bs, globalBoost))
    case None => None
    case Some(s) =>
      ReduceIsSum(Scaled(bs, globalBoost));
      ScaledSum(bs, globalBoost);
      Some(s + apsBoost)
  }
}
