/** The game's economy state and the operations the host drives: a click on
    the main atom, the per-frame update, and the APS recomputation. */
module Game {
  import opened Entities
  import opened Economy
  import opened UpgradeOrder
  import opened Catalogue

  /** One event from the host: a click on the main atom, or one animation frame
      (an `update()` followed by a `calculateAPS()`) at the frame rate the
      ticker reports for that frame. */
  datatype Input = AtomClicked | FrameTicked(fps: real)

  function ClickCount(inputs: seq<Input>): nat {
    if inputs == [] then 0
    else ClickCount(inputs[..|inputs| - 1]) + (if inputs[|inputs| - 1].AtomClicked? then 1 else 0)
  }

  class Game {
    var atomsCount: real
    var atomsPerClicks: real
    var atomsPerClicksAPSBoost: real
    var atomsPerSecond: real
    var atomsPerSecondBoost: real
    var buildings: seq<Building>
    var buildingsGlobalBoost: real
    var totalAtomsProduced: real
    var totalClicks: nat
    var upgrades: seq<Upgrade>

    /** The lifetime counter never trails the spendable one. Clicks and frames
        keep it; it is also the invariant a purchase (not modelled here) must
        keep, since spending lowers only `atomsCount`. */
    predicate Valid()
      reads this
    {
      atomsCount <= totalAtomsProduced
    }

    /** What has left `atomsCount` other than through production: purchases,
        which this model does not perform, so clicks and frames keep it fixed. */
    function Spent(): real
      reads this
    {
      totalAtomsProduced - atomsCount
    }

    /** Every input to production is non-negative, so no counter can go down. */
    predicate NonNegativeRates()
      reads this
    {
      && atomsPerClicks >= 0.0
      && atomsPerClicksAPSBoost >= 0.0
      && atomsPerSecond >= 0.0
      && atomsPerSecondBoost >= 0.0
      && buildingsGlobalBoost >= 0.0
      && forall i :: 0 <= i < |buildings| ==> buildings[i].totalAtomPerSecond >= 0.0
    }

    /** The `totalAtomsPerClicks` getter. */
    function TotalAtomsPerClicks(): real
      reads this
    {
      ClickYield(atomsPerClicks, atomsPerSecond, atomsPerClicksAPSBoost)
    }

    /** Builds the starting state: the configured buildings and upgrades, then
        the generated tiers and milestones appended in order. `tierPrice` is the
        building-tier price formula. */
    constructor (buildingCatalogue: seq<Building>, upgradeCatalogue: seq<Upgrade>, tierPrice: (Building, nat) -> int)
      ensures atomsCount == 0.0 && totalAtomsProduced == 0.0 && totalClicks == 0
      ensures atomsPerClicks == 1.0 && atomsPerClicksAPSBoost == 0.0
      ensures atomsPerSecond == 0.0 && atomsPerSecondBoost == 0.0 && buildingsGlobalBoost == 1.0
      ensures buildings == buildingCatalogue
      ensures upgrades == upgradeCatalogue + Generated(buildingCatalogue, tierPrice)
      ensures Valid() && Spent() == 0.0
      ensures TotalAtomsPerClicks() == 1.0
    {
      atomsCount := 0.0;
      atomsPerClicks := 1.0;
      atomsPerClicksAPSBoost := 0.0;
      atomsPerSecond := 0.0;
      atomsPerSecondBoost := 0.0;
      buildings := buildingCatalogue;
      buildingsGlobalBoost := 1.0;
      totalAtomsProduced := 0.0;
      totalClicks := 0;
      upgrades := upgradeCatalogue;
      new;
      var tiers := BuildingTiers(buildings, tierPrice);
      upgrades := upgrades + tiers;
      var clicks := GenerateClickMilestones();
      ClickMilestonesExtensional(clicks);
      upgrades := upgrades + clicks;
      var atoms := GenerateAtomsMilestones();
      AtomsMilestonesExtensional(atoms);
      upgrades := upgrades + atoms;
      InitialClickYield();
    }

    /** The click handler: the rounded per-click yield goes to both counters and
        the click is counted; nothing else in the economy changes. */
    method Click()
      requires Valid()
      modifies this`atomsCount, this`totalAtomsProduced, this`totalClicks
      ensures Valid()
      ensures atomsCount == old(atomsCount) + old(TotalAtomsPerClicks())
      ensures totalAtomsProduced == old(totalAtomsProduced) + old(TotalAtomsPerClicks())
      ensures totalClicks == old(totalClicks) + 1
      ensures Spent() == old(Spent())
      ensures NonNegativeRates() ==> atomsCount >= old(atomsCount) && totalAtomsProduced >= old(totalAtomsProduced)
    {
      atomsCount := atomsCount + TotalAtomsPerClicks();
      totalAtomsProduced := totalAtomsProduced + TotalAtomsPerClicks();
      totalClicks := totalClicks + 1;
    }

    /** The economy part of `update()`: sort the upgrades by price, rank the
        visible ones, and credit one frame's share of APS to both counters.
        The returned ranks are what the display places each upgrade by. */
    method Update(fps: real) returns (ranks: seq<int>)
      requires Valid() && fps > 0.0
      modifies this`upgrades, this`atomsCount, this`totalAtomsProduced
      ensures Valid()
      ensures SortedByPrice(upgrades) && multiset(upgrades) == multiset(old(upgrades))
      ensures |ranks| == |upgrades|
      ensures forall i :: 0 <= i < |upgrades| ==> ranks[i] == Rank(upgrades, i)
      ensures forall i :: 0 <= i < |upgrades| ==> (0 <= ranks[i] <==> Visible(upgrades[i]))
      ensures atomsCount == old(atomsCount) + atomsPerSecond / fps
      ensures totalAtomsProduced == old(totalAtomsProduced) + atomsPerSecond / fps
      ensures Spent() == old(Spent())
      ensures NonNegativeRates() ==> atomsCount >= old(atomsCount) && totalAtomsProduced >= old(totalAtomsProduced)
    {
      upgrades := SortByPrice(upgrades);
      ranks := RankUpgrades(upgrades);
      atomsCount := atomsCount + atomsPerSecond / fps;
      totalAtomsProduced := totalAtomsProduced + atomsPerSecond / fps;
      if atomsPerSecond >= 0.0 {
        assert atomsPerSecond / fps >= 0.0;
      }
    }

    /** `calculateAPS()`: with at least one building, APS becomes the boosted
        building production plus the flat boost; with none, the unseeded reduce
        throws and APS keeps its value (`ok` is false). */
    method CalculateAPS() returns (ok: bool)
      modifies this`atomsPerSecond
      ensures ok <==> |buildings| > 0
      ensures ok ==> atomsPerSecond == buildingsGlobalBoost * TotalRate(buildings) + atomsPerSecondBoost
      ensures !ok ==> atomsPerSecond == old(atomsPerSecond)
      ensures old(NonNegativeRates()) ==> NonNegativeRates()
    {
      var aps := Aps(buildings, buildingsGlobalBoost, atomsPerSecondBoost);
      if aps.Some? {
        atomsPerSecond := aps.value;
        ok := true;
      } else {
        ok := false;
      }
      if old(NonNegativeRates()) {
        TotalRateNonNegative(buildings);
        assert buildingsGlobalBoost * TotalRate(buildings) >= 0.0;
      }
    }

    /** One frame of the host loop: `update()` then `calculateAPS()`. */
    method Tick(fps: real) returns (ranks: seq<int>, ok: bool)
      requires Valid() && fps > 0.0
      modifies this`upgrades, this`atomsCount, this`totalAtomsProduced, this`atomsPerSecond
      ensures Valid()
      ensures SortedByPrice(upgrades) && multiset(upgrades) == multiset(old(upgrades))
      ensures |ranks| == |upgrades|
      ensures forall i :: 0 <= i < |upgrades| ==> ranks[i] == Rank(upgrades, i)
      ensures atomsCount == old(atomsCount) + old(atomsPerSecond) / fps
      ensures totalAtomsProduced == old(totalAtomsProduced) + old(atomsPerSecond) / fps
      ensures ok <==> |buildings| > 0
      ensures ok ==> atomsPerSecond == buildingsGlobalBoost * TotalRate(buildings) + atomsPerSecondBoost
      ensures !ok ==> atomsPerSecond == old(atomsPerSecond)
      ensures Spent() == old(Spent())
      ensures old(NonNegativeRates()) ==> NonNegativeRates() && atomsCount >= old(atomsCount) && totalAtomsProduced >= old(totalAtomsProduced)
    {
      ranks := Update(fps);
      ok := CalculateAPS();
    }

    /** Any interleaving of clicks and frames, each frame at its own positive
        frame rate: purchases aside, the gap between the two counters stays
        fixed, every click is counted, and with non-negative rates neither
        counter goes down. */
    method Play(inputs: seq<Input>)
      requires Valid()
      requires forall i :: 0 <= i < |inputs| && inputs[i].FrameTicked? ==> inputs[i].fps > 0.0
      modifies this`upgrades, this`atomsCount, this`totalAtomsProduced, this`atomsPerSecond, this`totalClicks
      ensures Valid()
      ensures Spent() == old(Spent())
      ensures totalClicks == old(totalClicks) + ClickCount(inputs)
      ensures multiset(upgrades) == multiset(old(upgrades))
      ensures old(NonNegativeRates()) ==> NonNegativeRates() && atomsCount >= old(atomsCount) && totalAtomsProduced >= old(totalAtomsProduced)
    {
      var i := 0;
      while i < |inputs|
        invariant 0 <= i <= |inputs|
        invariant Valid()
        invariant Spent() == old(Spent())
        invariant totalClicks == old(totalClicks) + ClickCount(inputs[..i])
        invariant multiset(upgrades) == multiset(old(upgrades))
        invariant old(NonNegativeRates()) ==> NonNegativeRates() && atomsCount >= old(atomsCount) && totalAtomsProduced >= old(totalAtomsProduced)
      {
        assert inputs[..i + 1][..i] == inputs[..i];
        match inputs[i] {
          case AtomClicked =>
            Click();
          case FrameTicked(frameRate) =>
            var _, _ := Tick(frameRate);
        }
        i := i + 1;
      }
      assert inputs[..|inputs|] == inputs;
    }
  }
}
