/** The upgrades the game generates at start-up, after the configured ones:
    building-count tiers, click milestones and lifetime-atoms milestones. */
module Catalogue {
  import opened Entities

  /** The building counts that earn a tier upgrade, per building, in order. */
  const Levels: seq<nat> := [15, 25, 50, 100, 200, 300, 400, 500, 750, 1000, 1500, 2000]

  /** The click-milestone loop runs while `level < 10e7`, that is below 10 * 10^7. */
  const ClickBound: nat := 10 * Pow10(7)

  /** The atoms-milestone loop runs while `level < 10e20`, that is below 10 * 10^20. */
  const AtomsBound: nat := 10 * Pow10(20)

  function Pow10(e: nat): (p: nat)
    ensures p >= 1
  {
    if e == 0 then 1 else 10 * Pow10(e - 1)
  }

  /** The decimal exponent of a power of ten (`Math.log10` on the levels used here). */
  function Log10(n: nat): nat {
    if n < 10 then 0 else 1 + Log10(n / 10)
  }

  lemma {:induction false} Log10Pow10(e: nat)
    ensures Log10(Pow10(e)) == e
  {
    if e > 0 {
      Log10Pow10(e - 1);
      assert Pow10(e) / 10 == Pow10(e - 1);
    }
  }

  lemma {:induction false} Pow10Monotone(a: nat, b: nat)
    requires a <= b
    ensures Pow10(a) <= Pow10(b)
    decreases b - a
  {
    if a < b {
      Pow10Monotone(a, b - 1);
    }
  }

  /** The tier upgrade for owning `level` of building `b`. Its price formula
      (rounded, with a natural logarithm) is supplied as `tierPrice`. */
  function TierUpgrade(b: Building, level: nat, tierPrice: (Building, nat) -> int): Upgrade {
    NewUpgrade(
      TierLabel(level, b.name),
      tierPrice(b, level) as real,
      BuildingEffect(b.name, level as real / 10.0),
      BuildingCondition(b.name, level))
  }

  function TierBlock(b: Building, tierPrice: (Building, nat) -> int): seq<Upgrade> {
    seq(|Levels|, j requires 0 <= j < |Levels| => TierUpgrade(b, Levels[j], tierPrice))
  }

  /** Reference definition: one block of twelve tiers per building, in building order. */
  function TierUpgrades(bs: seq<Building>, tierPrice: (Building, nat) -> int): seq<Upgrade> {
    if bs == [] then []
    else TierUpgrades(bs[..|bs| - 1], tierPrice) + TierBlock(bs[|bs| - 1], tierPrice)
  }

  /** The start-up loops over buildings and over `Levels`. */
  method BuildingTiers(bs: seq<Building>, tierPrice: (Building, nat) -> int) returns (us: seq<Upgrade>)
    ensures us == TierUpgrades(bs, tierPrice)
  {
    us := [];
    for i := 0 to |bs|
      invariant us == TierUpgrades(bs[..i], tierPrice)
    {
      var b := bs[i];
      ghost var before := us;
      for j := 0 to |Levels|
        invariant |us| == |before| + j
        invariant us[..|before|] == before
        invariant forall k :: 0 <= k < j ==> us[|before| + k] == TierUpgrade(b, Levels[k], tierPrice)
      {
        us := us + [TierUpgrade(b, Levels[j], tierPrice)];
      }
      assert us == before + TierBlock(b, tierPrice);
      assert bs[..i + 1][..i] == bs[..i];
    }
    assert bs[..|bs|] == bs;
  }

  /** Building `i` owns positions 12i..12i+11, one per level, each conditioned on
      owning `level` of that building and boosting it by `level / 10`. */
  lemma {:induction false} TierUpgradesLayout(bs: seq<Building>, tierPrice: (Building, nat) -> int, i: int, j: int)
    requires 0 <= i < |bs| && 0 <= j < |Levels|
    ensures |TierUpgrades(bs, tierPrice)| == |Levels| * |bs|
    ensures var u := TierUpgrades(bs, tierPrice)[|Levels| * i + j];
      && u.condition == BuildingCondition(bs[i].name, Levels[j])
      && u.effect == BuildingEffect(bs[i].name, Levels[j] as real / 10.0)
      && u.price == tierPrice(bs[i], Levels[j]) as real
      && u.info == TierLabel(Levels[j], bs[i].name)
      && !u.unlocked && !u.owned
    decreases |bs|
  {
    var n := |bs| - 1;
    var init := bs[..n];
    TierUpgradesLength(bs, tierPrice);
    TierUpgradesLength(init, tierPrice);
    if i < n {
      assert init[i] == bs[i];
      TierUpgradesLayout(init, tierPrice, i, j);
    }
  }

  lemma {:induction false} TierUpgradesLength(bs: seq<Building>, tierPrice: (Building, nat) -> int)
    ensures |TierUpgrades(bs, tierPrice)| == |Levels| * |bs|
    decreases |bs|
  {
    if bs != [] {
      TierUpgradesLength(bs[..|bs| - 1], tierPrice);
    }
  }

  function ClickMilestone(level: nat): Upgrade {
    NewUpgrade(
      ClicksLabel(level),
      (level * 10) as real,
      ClickEffect(Log10(level) as real),
      ClickCondition(level))
  }

  function AtomsMilestone(level: nat): Upgrade {
    NewUpgrade(
      AtomsLabel(level),
      (level * 10) as real,
      ApsEffect(Log10(level) as real),
      AtomsCondition(level))
  }

  /** Reference definition: the click milestones at 10^2, 10^3, ..., 10^7. */
  function ClickMilestones(): seq<Upgrade> {
    seq(6, k requires 0 <= k < 6 => ClickMilestone(Pow10(k + 2)))
  }

  /** Reference definition: the atoms milestones at 10^3, 10^4, ..., 10^20. */
  function AtomsMilestones(): seq<Upgrade> {
    seq(18, k requires 0 <= k < 18 => AtomsMilestone(Pow10(k + 3)))
  }

  /** The loop `for (level = 100; level < 10e7; level *= 10)`. */
  method GenerateClickMilestones() returns (us: seq<Upgrade>)
    ensures |us| == 6
    ensures forall k :: 0 <= k < 6 ==> us[k] == ClickMilestone(Pow10(k + 2))
  {
    us := [];
    var level: nat := 100;
    while level < ClickBound
      invariant |us| <= 6
      invariant level == Pow10(2 + |us|)
      invariant forall k :: 0 <= k < |us| ==> us[k] == ClickMilestone(Pow10(k + 2))
      decreases 6 - |us|
    {
      assert |us| < 6;
      us := us + [ClickMilestone(level)];
      level := level * 10;
    }
    if |us| < 6 {
      Pow10Monotone(2 + |us|, 7);
      assert false;
    }
  }

  /** The loop `for (level = 1000; level < 10e20; level *= 10)`. */
  method GenerateAtomsMilestones() returns (us: seq<Upgrade>)
    ensures |us| == 18
    ensures forall k :: 0 <= k < 18 ==> us[k] == AtomsMilestone(Pow10(k + 3))
  {
    us := [];
    var level: nat := 1000;
    assert Pow10(3) == 1000;
    while level < AtomsBound
      invariant |us| <= 18
      invariant level == Pow10(3 + |us|)
      invariant forall k :: 0 <= k < |us| ==> us[k] == AtomsMilestone(Pow10(k + 3))
      decreases 18 - |us|
    {
      assert |us| < 18;
      us := us + [AtomsMilestone(level)];
      level := level * 10;
    }
    if |us| < 18 {
      Pow10Monotone(3 + |us|, 20);
      assert false;
    }
  }

  /** Click milestone `k` sits at level 10^(k+2), costs ten times its level,
      unlocks at that many clicks and multiplies by the exponent. */
  lemma ClickMilestonesFields(k: int)
    requires 0 <= k < |ClickMilestones()|
    ensures |ClickMilestones()| == 6
    ensures var u := ClickMilestones()[k];
      && u.condition == ClickCondition(Pow10(k + 2))
      && u.price == (10 * Pow10(k + 2)) as real
      && u.effect == ClickEffect((k + 2) as real)
      && u.info == ClicksLabel(Pow10(k + 2))
      && !u.unlocked && !u.owned
  {
    Log10Pow10(k + 2);
  }

  /** Atoms milestone `k` sits at level 10^(k+3), costs ten times its level,
      unlocks at that many lifetime atoms and boosts APS by the exponent. */
  lemma AtomsMilestonesFields(k: int)
    requires 0 <= k < |AtomsMilestones()|
    ensures |AtomsMilestones()| == 18
    ensures var u := AtomsMilestones()[k];
      && u.condition == AtomsCondition(Pow10(k + 3))
      && u.price == (10 * Pow10(k + 3)) as real
      && u.effect == ApsEffect((k + 3) as real)
      && u.info == AtomsLabel(Pow10(k + 3))
      && !u.unlocked && !u.owned
  {
    Log10Pow10(k + 3);
  }

  /** `e` zero digits. */
  function Zeros(e: nat): string {
    seq(e, _ => '0')
  }

  /** 10^e is printed as a one followed by `e` zeros. */
  lemma {:induction false} DecimalPow10(e: nat)
    ensures NatToString(Pow10(e)) == "1" + Zeros(e)
  {
    if e > 0 {
      DecimalPow10(e - 1);
      var n := Pow10(e);
      assert n / 10 == Pow10(e - 1) && n % 10 == 0 && n >= 10;
      assert Zeros(e - 1) + "0" == Zeros(e);
    }
  }

  /** Click milestone `k` is named "1" and k+2 zeros, then " clicks !", and
      described as "You have clicked <level> times.". */
  lemma ClickMilestonesText(k: int)
    requires 0 <= k < |ClickMilestones()|
    ensures Name(ClickMilestones()[k].info) == "1" + Zeros(k + 2) + " clicks !"
    ensures Description(ClickMilestones()[k].info) == "You have clicked " + "1" + Zeros(k + 2) + " times."
  {
    DecimalPow10(k + 2);
  }

  /** Atoms milestone `k` is named "1" and k+3 zeros, then " atoms generated.",
      and described as "You have generated <level> total atoms.". */
  lemma AtomsMilestonesText(k: int)
    requires 0 <= k < |AtomsMilestones()|
    ensures Name(AtomsMilestones()[k].info) == "1" + Zeros(k + 3) + " atoms generated."
    ensures Description(AtomsMilestones()[k].info) == "You have generated " + "1" + Zeros(k + 3) + " total atoms."
  {
    var level := Pow10(k + 3);
    assert AtomsMilestones()[k] == AtomsMilestone(level);
    DecimalPow10(k + 3);
  }

  lemma ClickMilestonesExtensional(us: seq<Upgrade>)
    requires |us| == 6
    requires forall k :: 0 <= k < 6 ==> us[k] == ClickMilestone(Pow10(k + 2))
    ensures us == ClickMilestones()
  {
  }

  lemma AtomsMilestonesExtensional(us: seq<Upgrade>)
    requires |us| == 18
    requires forall k :: 0 <= k < 18 ==> us[k] == AtomsMilestone(Pow10(k + 3))
    ensures us == AtomsMilestones()
  {
  }

  /** Everything the constructor appends after the configured upgrades, in order. */
  function Generated(bs: seq<Building>, tierPrice: (Building, nat) -> int): seq<Upgrade> {
    TierUpgrades(bs, tierPrice) + ClickMilestones() + AtomsMilestones()
  }

  lemma GeneratedLength(bs: seq<Building>, tierPrice: (Building, nat) -> int)
    ensures |Generated(bs, tierPrice)| == |Levels| * |bs| + 6 + 18
  {
    TierUpgradesLength(bs, tierPrice);
  }
}
