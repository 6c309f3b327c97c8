/** The economy's value types: buildings, upgrades, and the tagged effect and
    condition records an upgrade carries. */
module Entities {

  /** A building as the economy sees it. Its own price and count logic is not
      part of this model; `totalAtomPerSecond` is what it currently produces. */
  datatype Building = Building(
    name: string,
    startingPrice: real,
    priceMultiplier: real,
    totalAtomPerSecond: real)

  /** What owning an upgrade does: boost one building, the click yield, or APS. */
  datatype Effect =
    | BuildingEffect(building: string, multiplier: real)
    | ClickEffect(multiplier: real)
    | ApsEffect(multiplier: real)

  /** When an upgrade unlocks: a building count, a click count, or a lifetime
      atoms threshold. */
  datatype Condition =
    | BuildingCondition(building: string, count: int)
    | ClickCondition(count: int)
    | AtomsCondition(count: int)

  /** How an upgrade's name and description come about: given by the
      configuration, or generated from a tier or milestone level. */
  datatype Label =
    | Configured(name: string, description: string)
    | TierLabel(level: nat, building: string)
    | ClicksLabel(level: nat)
    | AtomsLabel(level: nat)

  /** Decimal rendering of a level, as a template literal prints it. */
  function NatToString(n: nat): string {
    (if n < 10 then "" else NatToString(n / 10)) + ["0123456789"[n % 10]]
  }

  /** The name text the upgrade is created with. */
  function Name(l: Label): string {
    match l
    case Configured(name, _) => name
    case TierLabel(level, building) => NatToString(level) + " " + building + "."
    case ClicksLabel(level) => NatToString(level) + " clicks !"
    case AtomsLabel(level) => NatToString(level) + " atoms generated."
  }

  /** The description text the upgrade is created with. */
  function Description(l: Label): string {
    match l
    case Configured(_, description) => description
    case TierLabel(level, building) => "Buy " + NatToString(level) + " " + building + "."
    case ClicksLabel(level) => "You have clicked " + NatToString(level) + " times."
    case AtomsLabel(level) => "You have generated " + NatToString(level) + " total atoms."
  }

  datatype Upgrade = Upgrade(
    info: Label,
    price: real,
    effect: Effect,
    condition: Condition,
    unlocked: bool,
    owned: bool)

  /** An upgrade is shown, and ranked, exactly when it is unlocked and not yet owned. */
  predicate Visible(u: Upgrade) {
    u.unlocked && !u.owned
  }

  /** A freshly created upgrade: locked and not owned. */
  function NewUpgrade(info: Label, price: real, effect: Effect, condition: Condition): (u: Upgrade)
    ensures !Visible(u)
  {
    Upgrade(info, price, effect, condition, false, false)
  }
}
