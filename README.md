# Atom clicker economy, modelled in Dafny

This project models the economy core of the atom-clicker game: the `Game` object's
numeric state, the click on the main atom, the per-frame update (accumulating
production, sorting upgrades by price, ranking the visible ones), the
atoms-per-second recomputation, and the upgrade catalogue the game generates at
start-up. Arbitrary-precision decimals (`BigFloat`) are `real`; the game's
JavaScript `number` fields (APS boost, global building boost, building rates,
prices) are `real` too; the click counter is a `nat`.

Files:

- `entities.dfy` (module `Entities`): buildings and upgrades as values. An upgrade is
  a name, a description, a price, a tagged effect (building, click, APS), a tagged
  unlock condition (building count, clicks, lifetime atoms) and the
  `unlocked`/`owned` flags. It is visible exactly when it is unlocked and not owned.
- `economy.dfy` (module `Economy`): the rounded click yield, and the unseeded
  `map`/`reduce` behind APS, proved equal to a plain seeded sum.
- `upgrade_order.dfy` (module `UpgradeOrder`): sorting by price and the
  position-among-visible ranking used to lay out upgrades.
- `catalogue.dfy` (module `Catalogue`): the generated tiers and milestones.
- `game.dfy` (module `Game`): the `Game` class. Its fields are the source's numeric
  fields and its two lists. Its methods are the click handler, `update`,
  `calculateAPS`, one host frame (`update` then `calculateAPS`), and any sequence of
  clicks and frames.

`calculateAPS` reduces with no seed value, so on an empty building list it throws
rather than giving the flat boost; the model keeps that error path:
`CalculateAPS` returns `ok = false` and leaves APS as it was.

The host supplies the frame rate as a positive parameter of each frame. The building-tier price
formula (`Math.round(startingPrice * priceMultiplier ** level * Math.log(level * 10))`)
also comes in as a parameter, `tierPrice`. `Math.log10` on the milestone levels is the
exact integer exponent `Log10`. The configured building and upgrade lists are
arbitrary inputs. They are taken as already-built values, because the `Building` and
`Upgrade` constructors are not part of this model. Generated upgrades start locked
and unowned. An upgrade's name and description are carried as a `Label` (configured
text, or the tier or milestone it was generated for), and `Name` / `Description`
render it with the source's templates.

## Model

| member | source | states |
|---|---|---|
| Economy.RoundUpHundredth | src/Game.ts:145 | the result is never below the input, is less than 0.01 above it, and is a whole number of hundredths |
| Economy.RoundUpHundredthIsLeast | src/Game.ts:145 | no multiple of 0.01 at or above the input lies below the result, so the rounding is exactly "up to the next hundredth" |
| Economy.ClickYield | src/Game.ts:144-146 | the per-click yield is at least `atomsPerClicks + atomsPerSecond * atomsPerClicksAPSBoost`, less than 0.01 above it, and a multiple of 0.01 |
| Economy.InitialClickYield | src/Game.ts:13-16 | with the starting values (per-click 1, APS 0, boost 0) a click yields exactly 1 |
| Economy.Reduce | src/Game.ts:175 | the unseeded reduce gives a value exactly when the list is non-empty |
| Economy.ReduceIsSum | src/Game.ts:175 | on a non-empty list the unseeded left fold equals the ordinary seeded sum |
| Economy.ScaledSum | src/Game.ts:175 | summing each building's rate times the global boost equals the global boost times the total rate |
| Economy.TotalRateNonNegative | src/Game.ts:175 | non-negative building rates give a non-negative total rate |
| Economy.Aps | src/Game.ts:173-177 | APS is defined exactly for a non-empty building list, and is then global boost times total building rate plus the flat boost |
| UpgradeOrder.SortByPrice | src/Game.ts:162 | the sorted list is in non-decreasing price order and is a permutation of the input |
| UpgradeOrder.RankUpgrades | src/Game.ts:162-167 | one rank per upgrade; a rank is non-negative exactly when the upgrade is unlocked and not owned; it is the count of visible upgrades before it; every rank is below the number of visible upgrades |
| UpgradeOrder.RankIndexesVisible | src/Game.ts:163 | a visible upgrade's rank is its index in the filtered visible list, which is what `indexOf` returns for it |
| UpgradeOrder.RankStrictlyIncreasing | src/Game.ts:163 | of two visible upgrades, the later one in the list has the strictly larger rank, so visible ranks are distinct |
| UpgradeOrder.RanksCover | src/Game.ts:163 | every rank from 0 to k-1, for k visible upgrades, belongs to some upgrade |
| UpgradeOrder.RankFollowsPrice | src/Game.ts:162-166 | on the price-sorted list, a visible upgrade with a lower rank never costs more than one with a higher rank |
| Catalogue.Log10Pow10 | src/Game.ts:119 | the base-10 logarithm of 10^e is e |
| Catalogue.BuildingTiers | src/Game.ts:92-110 | the nested loops over buildings and levels produce exactly the reference tier list |
| Catalogue.TierUpgradesLayout | src/Game.ts:92-110 | 12 tiers per building in building order; tier j of building i unlocks at `Levels[j]` of that building, boosts that building by `Levels[j] / 10`, costs the tier price, is labelled with that level and building (rendered as "<level> <building>." and "Buy <level> <building>."), and starts locked |
| Catalogue.GenerateClickMilestones | src/Game.ts:112-124 | the click loop runs exactly six times, producing the milestones at 10^2 to 10^7 in order, since the bound `10e7` is 10^8 exclusive |
| Catalogue.ClickMilestonesFields | src/Game.ts:112-124 | click milestone k has level 10^(k+2): it unlocks at that many clicks, costs ten times the level, is labelled with its level, and has a click effect whose multiplier is the exponent k+2 |
| Catalogue.GenerateAtomsMilestones | src/Game.ts:126-138 | the atoms loop runs exactly eighteen times, producing the milestones at 10^3 to 10^20 in order, since the bound `10e20` is 10^21 exclusive |
| Catalogue.AtomsMilestonesFields | src/Game.ts:126-138 | atoms milestone k has level 10^(k+3): it unlocks at that many lifetime atoms, costs ten times the level, is labelled with its level, and has an APS effect whose multiplier is the exponent k+3 |
| Catalogue.DecimalPow10 | src/Game.ts:114-115 | a level 10^e is printed, as a template literal prints it, as a one followed by e zeros |
| Catalogue.ClickMilestonesText | src/Game.ts:114-115 | click milestone k is named "1" with k+2 zeros then " clicks !", and described as "You have clicked <level> times." |
| Catalogue.AtomsMilestonesText | src/Game.ts:128-129 | atoms milestone k is named "1" with k+3 zeros then " atoms generated.", and described as "You have generated <level> total atoms." |
| Catalogue.GeneratedLength | src/Game.ts:92-138 | the game generates 12 upgrades per building plus 6 click milestones and 18 atoms milestones |
| Game.Game.constructor | src/Game.ts:12-142 | the starting field values; buildings are the configured list; upgrades are the configured list followed by the tiers, then the click milestones, then the atoms milestones; the first click yields 1 |
| Game.Game.Click | src/Game.ts:58-61 | both counters grow by the same rounded yield, the click count grows by one, no other field changes (frame), the counter gap is kept, and with non-negative rates neither counter decreases |
| Game.Game.Update | src/Game.ts:148-171 | upgrades become a price-sorted permutation of themselves; ranks are computed on the sorted list; both counters grow by `atomsPerSecond / fps`; nothing else changes; the counter gap is kept |
| Game.Game.CalculateAPS | src/Game.ts:173-177 | with buildings, APS becomes global boost times total rate plus flat boost; with none, the call fails and APS is unchanged; non-negative inputs keep APS non-negative |
| Game.Game.Tick | src/app.ts:26-33 | one host frame: `update` with the APS at the start of the frame, then `calculateAPS`; the combined effect on counters, upgrades and APS |
| Game.Game.Play | src/app.ts:25-33 | over any interleaving of clicks and frames, each frame with its own positive frame rate, the counter gap is kept, the click count grows by the number of clicks, upgrades stay a permutation, and with non-negative rates both counters are non-decreasing |

## Left out

- Display work is not modelled. That covers sprites, text, positions from the window size, number formatting, and assigning `container.visible` / `container.y` (src/Game.ts:28-56, 149-159, 165-166). `Update` returns the ranks the display would use instead.
- The floating "+N" label after a click is not modelled. It uses random jitter and an `await sleep` loop over frames, so it is cosmetic and asynchronous (src/Game.ts:63-73).
- `Building.update()` and `Upgrade.update()` are not modelled, because their source is not part of this model. The same goes for unlock evaluation, effect application and purchases. The model keeps an upgrade's flags as they are during a frame.
- The building-tier price uses IEEE floating point and a natural logarithm (src/Game.ts:99). It is the function parameter `tierPrice`.
- `PIXI.Ticker.shared.FPS` comes from the host scheduler. It is the positive parameter `fps`.
- The contents of the JSON building and upgrade catalogues are not modelled (src/Game.ts:4-5, 76-90). Any lists may be supplied.
- BigFloat arithmetic is exact `real` arithmetic here. Any precision limit the library applies to division is not modelled. The `number` products in `calculateAPS`, and `totalClicks` past 2^53, are not modelled as IEEE floats either.
- UpgradeOrder.SortByPrice: is a fixed reference sort. Only what every price sort guarantees (sorted, a permutation) is stated; the order of upgrades with equal prices is not.
- Game.Game.Update: states only that the new list is sorted by price and is a permutation of the old one, not where upgrades with equal prices end up.
- The ranking lemmas (RankUpgrades, RankIndexesVisible, RankStrictlyIncreasing, RanksCover, RankFollowsPrice) assume that `upgrade.update()` changes no `unlocked`/`owned` flag during the pass. In the source it runs between one upgrade's index computation and the next (src/Game.ts:163-164), so a flag it changed mid-pass would shift later ranks.
- Upgrade ranking uses positions in the list. In the source, `indexOf` finds the upgrade by object identity; a position stands for that identity here.
- The source's `async` wrappers are not modelled (the ticker callback, the click handler). The model treats a frame or a click as one synchronous step. An exception from `calculateAPS` becomes the `ok = false` result.
- src/elements/GUI.ts, src/buyables/Buyable.ts and gulpfile.js are not part of this model. They are display code, an interface with no behaviour, and build tooling.
