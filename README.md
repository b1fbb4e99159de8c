# the-Particle game-state engine in Dafny

This project models the state engine of *the-Particle*, a browser idle game
(`script.js`). The game holds one global `game` record. It has a particle
balance, a lifetime particle total, a prestige count, two wall-clock stamps,
and eight accelerator generators ("Mk.1" … "Mk.8"). Tier 0 produces particles.
Every higher tier produces units of the tier below it. Buying a unit costs
`baseCost * costMult^bought` and multiplies that tier's production by 1.1. A
prestige reset doubles the global multiplier `2^prestigeCount`. The game saves
to local storage, and on load it merges the save over a fresh state and replays
the time the player was away in 1000 equal steps.

Modules:

- `Wrappers`: `Option`, for fields a save may lack.
- `Numeric`: `Pow` (a natural power of a real) and small real-arithmetic lemmas.
- `Generators`: the generator record, the eight initial tiers, the price
  function `Cost`, and price lemmas.
- `GameState`: the `game` record as a value (`State`) and the rules that step
  it. These are `BuyOne`, `PurchaseN` (buy max), `Tick` (the cascade as a
  simultaneous update), `TickN` / `OfflineReplay`, and `Prestige`, plus the
  invariant `WellFormed` and the lemmas about all of them.
- `SaveMerge`: save records with optional fields, the `loadGame` merge, the
  record `saveGame` writes, and `Loaded` (the whole load).
- `Engine`: class `Game`, the mutable `game` object over an
  `array<Generator>`. Its methods follow the JavaScript functions statement by
  statement. Each ensures that the new `Snapshot()` is what the matching
  `GameState` / `SaveMerge` rule gives for the old one. The key case is
  `CascadeInPlace`: the ascending in-place loop `target.amount += …` is proved
  equal to the simultaneous update `Cascade`, which uses pre-tick amounts.
- `TimeFormat`: `formatTime` and the decimal printing it relies on.

Numbers are exact `real`s standing for JavaScript doubles, and 1.1 is written
`11.0 / 10.0`. The clock (`Date.now()`), the player's answer to `confirm`, and
the parsed save are method parameters.

The game has one prestige layer, with multiplier `2^prestigeCount`. Buy max
buys one unit at a time. Offline replay takes 1000 equal steps under a 7-day
cap, and no non-finite value is treated as zero.

The live frame length has no lower clamp (script.js:62-65). If the clock steps
back, a frame's `dt` is negative and the frame lowers the particle balance.
`GameState.BackwardClockLowersParticles` proves this for every well-formed
state whose tier 0 holds units. The model keeps this behaviour as written.

## Model

| member | source | states |
|---|---|---|
| Generators.InitialGenerators | script.js:17-26 | the fresh list has 8 tiers, tier j has id j, a positive base price that rises tier by tier and a ratio above 1, and starts with amount 0, bought 0, production 1 |
| GameState.InitialState | script.js:10-28 | a fresh game holds 10 particles, a lifetime total of 10, prestige 0, both stamps at `now`, and the 8 fresh tiers |
| Numeric.PowAtLeastOne | script.js:51-53 | a power of a base of at least 1 is at least 1 |
| Numeric.PowStrictlyIncreasing | script.js:51-53 | for a base above 1, `Math.pow(r, m) < Math.pow(r, n)` whenever m < n |
| Numeric.PowAdd | script.js:51-53 | r^(m+n) = r^m * r^n |
| Numeric.DivFloorBound | script.js:160 | x copies of a positive b that fit in p number at most floor(p / b): the bound on how many units buy max can take |
| Generators.CostAtLeastBase | script.js:51-53 | with a positive base and a ratio of at least 1, `getCost` is never below `baseCost` |
| Generators.CostStrictlyIncreasing | script.js:51-53 | with a ratio above 1 (every initial tier), the price is strictly increasing in `bought` |
| Generators.PurchasedCost | script.js:51-53 | each purchase multiplies the next price by exactly `costMult` |
| Generators.PurchasedTimesClosedForm | script.js:164-167 | n purchases raise amount and bought by n, multiply production by 1.1^n, and keep id, name, base price and ratio |
| Generators.PurchasedTimesCompose | script.js:161-172 | buying m units one at a time and then n more leaves the generator exactly as buying m + n units does |
| Generators.SpentAtLeast | script.js:160-168 | n successive units of a priced tier cost at least n base prices in total |
| GameState.GlobalMultiplier | script.js:55-57 | the global multiplier 2^prestigeCount is at least 1 |
| GameState.GlobalMultiplierDoubles | script.js:55-57 | one more prestige doubles the global multiplier |
| GameState.InitialStateWellFormed | script.js:10-28 | a fresh game satisfies the invariant: non-negative balances, positive prices, ratios above 1, non-negative amounts, production at least 1 |
| GameState.BuyOneEffect | script.js:143-153 | an unaffordable purchase leaves the whole state unchanged; an affordable one charges exactly the pre-purchase price, raises amount and bought by 1, multiplies production by 1.1, and changes no other tier or field |
| GameState.BuyOnePreservesWellFormed | script.js:143-153 | a single purchase keeps the invariant, so the balance never goes negative |
| GameState.PurchaseNClosedForm | script.js:161-172 | after n buy-max iterations tier i is the n-fold purchase, the balance has paid the n successive prices, and no other tier or field has changed |
| GameState.BuysExactlyUnique | script.js:161-172 | the stopping point of buy max is unique: at most one run length has every purchase affordable and the next one not |
| GameState.AffordableRunBounded | script.js:160-172 | an affordable run pays at least one base price per unit, so it has at most particles / baseCost units; after it the balance is non-negative if it started so |
| GameState.PurchaseNPreservesWellFormed | script.js:161-172 | buy max keeps the invariant |
| GameState.TickEffect | script.js:68-82 | one tick adds tier 0's pre-tick `amount * production * mult * dt` to both particle counters; each tier j-1 gains tier j's pre-tick output; the top tier keeps its amount; nothing but amounts changes in the generators |
| GameState.TickPreservesWellFormed | script.js:68-82 | with dt ≥ 0 a tick keeps the invariant and never lowers particles or any amount |
| GameState.TickNFrame | script.js:110-122 | over any number of ticks only amounts and the two counters change, the top tier's amount stays fixed, and both counters gain the same total |
| GameState.TickNPreservesWellFormed | script.js:110-122 | with dt ≥ 0 any number of ticks keeps the invariant and never lowers particles or any amount |
| GameState.TickExample | script.js:71-74 | tier 0 with 100 units and production 1 under multiplier 1 yields exactly 100 particles in one second |
| GameState.BackwardClockLowersParticles | script.js:62-74 | when the clock steps back (`now < lastTick`) and tier 0 holds units, a live frame makes `dt` negative and lowers the particle balance |
| GameState.LiveDt | script.js:62-65 | the live frame length is at most 1 second, is the elapsed time when that is at most 1 second, and is 1 second otherwise |
| GameState.OfflineSeconds | script.js:102 | the credited absence is at most 604800 seconds (7 days), and is the input when the input is within that cap |
| GameState.OfflineReplayWellFormed | script.js:100-122 | offline replay keeps the invariant, never lowers particles, keeps the prestige count, and each of its steps lasts at most 604.8 s |
| GameState.PrestigeEffect | script.js:181-186 | a prestige raises prestigeCount by exactly 1, sets particles to 10 and the lifetime total to 0, restores the fresh generator list, doubles the global multiplier, and gives a well-formed state |
| SaveMerge.CompleteGenerator | script.js:280 | a saved generator with no fresh counterpart becomes a whole generator exactly when the save carries every field, and that generator is the save's own: laying it over any generator gives it |
| SaveMerge.MergeGenerators | script.js:280 | the merged list has the saved list's length; generator i is saved generator i laid over fresh generator i; a tier beyond the fresh list is the saved generator itself, and must be complete |
| SaveMerge.Merge | script.js:278-282 | without a saved generator list the fresh list is kept; with one, the merged list is the per-tier overlay of the saved list on the fresh one, with the saved list's length |
| SaveMerge.MergeTopLevel | script.js:278-282 | every top-level field comes from the save when present and from the fresh state otherwise; over `getInitialState` a missing `prestigeCount` is 0 |
| SaveMerge.MergeGeneratorFields | script.js:280 | each merged generator takes every field the save carries and the fresh generator's value for every missing one |
| SaveMerge.MergeSavedRoundTrip | script.js:258-260 | a complete save merged over any fresh state gives back exactly the saved state |
| SaveMerge.MergeEmptySave | script.js:278-282 | a save with no fields merged over a fresh state gives that fresh state |
| SaveMerge.SavedLastTick | script.js:275 | a missing or zero saved timestamp counts as `now`; any other saved timestamp is used as is |
| SaveMerge.LoadedIgnoresCurrent | script.js:268-295 | loading depends only on the blob and the clock, so loading the same blob twice gives the same state |
| SaveMerge.SaveLoadRoundTrip | script.js:258-292 | saving and loading again within one second restores the state except that its last tick becomes the load time |
| SaveMerge.SaveLoadAfterAbsence | script.js:275-292 | after a longer absence the restored state is the offline replay of the saved one over the gap, stamped with the load time |
| Engine.Game.constructor | script.js:31 | the global object starts as `getInitialState()` |
| Engine.Game.Pay | script.js:147-150 | one paid unit, the step shared by both purchase actions, equals `PurchaseStep` |
| Engine.Game.BuyGenerator | script.js:143-153 | the object moves exactly as `BuyOne` prescribes |
| Engine.Game.BuyMaxGenerator | script.js:156-175 | the loop terminates; the object ends as `PurchaseN` of the returned count; every purchase was affordable and the next is not; the balance stays non-negative if it started so; bought and amount each rose by the count |
| Engine.Game.CascadeInPlace | script.js:78-82 | the ascending in-place loop leaves the array equal to the simultaneous cascade over pre-tick amounts |
| Engine.Game.ProduceStep | script.js:71-82 | one production step moves the object exactly as `Tick` prescribes |
| Engine.Game.GameLoop | script.js:60-82 | one frame stamps `lastTick` with `now` and applies `Tick` under the current multiplier for the clamped frame length |
| Engine.Game.SimulateOfflineProgress | script.js:100-124 | the object ends as 1000 ticks of length clamped-seconds / 1000 under the starting multiplier, and the reported gain is the change in particles |
| Engine.Game.SaveGame | script.js:258-260 | saving stamps `lastTick` with `now` and writes the complete record of the state |
| Engine.Game.DoPrestige | script.js:178-192 | declined, nothing changes; confirmed, the object becomes `Prestige` of the old one and that state is saved |
| Engine.Game.LoadGame | script.js:268-295 | the object ends as `Loaded` prescribes for the parsed blob and the clock |
| TimeFormat.NatToString | script.js:44-46 | `toString` of a whole number is a non-empty string of decimal digits with no leading zero, one digit below 10 and two for 10..99 |
| TimeFormat.NatToStringValue | script.js:44-46 | the printed digits of a number read back as that number |
| TimeFormat.LeadingZeroValue | script.js:44-46 | a leading zero does not change the value of a digit string |
| TimeFormat.PadStart2 | script.js:44-46 | `padStart(2, '0')` keeps the digits' value and gives at least two characters |
| TimeFormat.Mod | script.js:45-46 | JavaScript `%` on a non-negative number: x minus floor(x / m) copies of m, which lies in [0, m) |
| TimeFormat.FieldsRecompose | script.js:43-46 | minutes and seconds are below 60, and 3600 h + 60 m + s is the whole number of seconds |
| TimeFormat.FormatTimeNegative | script.js:43 | a negative input prints as `00:00:00` |
| TimeFormat.FormatTimeFields | script.js:42-48 | the output is `HH:MM:SS`: an hour field of at least two digits worth floor(seconds / 3600), with no leading zero from 10 hours on, two-digit minute and second fields in 00..59, and the fields together give back the whole seconds |
| TimeFormat.FormatTimeExample | script.js:42-48 | 3661.5 seconds prints as `01:01:01` |

## Left out

- DOM and UI (`updateUI`, `updateStats`, `toggleSidebar`, `switchTab`, `init`'s row building, the save-status message): these only read the state to draw the page.
- `format`: it is floating-point formatting through `Math.log10`, `Math.pow(10, ·)` and `toFixed`, which have no exact counterpart on reals.
- IEEE-754 behaviour (rounding, overflow to Infinity, NaN): reals are exact. `formatTime` for hours of 10^21 or more, where `toString` switches to exponent notation, is outside the model for the same reason.
- Browser environment: `localStorage`, `JSON.parse`/`JSON.stringify`, `Date.now`, `requestAnimationFrame`, `setTimeout`, `alert`, `confirm`. Timestamps, the confirm answer and the parsed save are parameters, and `SaveGame` returns the written record instead of storing it.
- Repeated clock reads: `loadGame` and `doPrestige` call `Date.now()` several times. The model takes one `now` per call, so all those reads return the same millisecond.
- `hardReset`: removing the storage key and reloading the page is browser I/O.
- The autosave trigger `now % 10000 < 20` in `gameLoop`: wall-clock timing of an I/O call.
- The offline "completion" alert, shown when the gain is positive: presentation. `SimulateOfflineProgress` returns the gain instead.
- JSON `null` field values and keys the game does not know: a save field is modelled as present or absent. An unparseable blob and a missing blob are both `None`, which leaves the state as it was, as the `try/catch` and the `if (data)` do.
- Engine.Game.LoadGame: a saved generator list longer than the fresh one, with a tier beyond the eighth that lacks a field, gives the JavaScript a generator with `undefined` fields. The model cannot represent that state. `SaveMerge.Merge` and `SaveMerge.MergeGenerators` return `None` for it, and the load keeps the current state.
- Saved `bought` and `prestigeCount` are typed `nat`, so a save holding a fractional or negative count (2.5, -1) cannot be represented.
- Engine.Game.BuyMaxGenerator: requires `baseCost > 0` and `costMult >= 1` for its tier. This is the assumption behind the "no infinite loop" comment of `buyMaxGenerator` (script.js:160). Without it the loop could fail to terminate: with `baseCost` 0 and a non-negative balance it loops forever. The requirement also excludes some runs that do finish, such as baseCost 10, costMult 0.5 and 5 particles, which stops at once. No operation of the game changes `baseCost` or `costMult`. They always come from `getInitialState` or from a save of it, and every initial tier meets the requirement, so no state the game builds breaks it.
- Engine.Game.ProduceStep, Engine.Game.GameLoop and Engine.Game.SimulateOfflineProgress: require at least one generator. `gameLoop` and `simulateOfflineProgress` read `generators[0]` and throw on an empty list. `LoadGame` models that throw.
- Engine.Game.BuyGenerator and Engine.Game.BuyMaxGenerator: require an index within the generator list. The UI only calls them with the index of a displayed row.
