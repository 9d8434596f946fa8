# Water-drop clicker: economy engine in Dafny

This project models the economy engine of a browser "clicker" game in which the
player collects water drops. The engine's state is one record, `gameState`. It
holds the balance (`waterPoints`), the gain per click (`perClick`) and one
entry per purchasable upgrade. Each entry has its current `count`, `cost`,
`increment` and the Broken Pump mark `tempLoss`. The engine's steps are:

- session start, which builds the upgrade entries from the catalog and the
  difficulty multiplier;
- a click on the droplet;
- a purchase;
- one tick of the one-second income loop;
- the `effect` and `revert` of the eight Hard-mode random events.

The model has two layers:

- `Economy` and `Events` describe the state as a value (`State`). Each step is
  a function on it, and the lemmas state what the game promises about those
  functions.
- `Engine.Game` is the running object. Its methods update the fields and the
  upgrade array in place, using loops where the source uses `forEach`. Each
  method is proved to produce exactly the state that the matching function
  computes from the old state. Each method also keeps the invariant `Sound`:
  the balance is never negative, the per-click gain is positive, and every
  cost and increment is positive.

All arithmetic is exact (`real`). `Math.ceil` is `Ceil`, `Math.pow` is `Pow`,
and `Math.floor(Math.random() * n)` is `RollIndex`, which takes the value
`Math.random()` returned as a parameter.

Files: `wrappers.dfy` (Option), `numbers.dfy`, `catalog.dfy` (the
`baseUpgrades` catalog and the difficulty table), `economy.dfy`, `events.dfy`
and `engine.dfy`.

In two places the code does less than its names suggest, and the model follows the code:

- `startGame` might be expected to reset the balance and the per-click gain;
  it does not. It only sets the difficulty and replaces the upgrade list. The
  0 and 1 come from the initial `gameState` literal, which is the `Game`
  constructor here.
- `eventChance` might be expected to be the chance of an event; it only
  decides whether the event system starts. The chance that a roll fires an
  event is the constant 0.3 (script.js:158).

Behaviour the code has that a reader might not expect is modelled as written
and stated as lemmas:

- Two overlapping Broken Pumps on the same upgrade share one mark. After both
  reverts, that upgrade has lost one unit for good (`SameVictimTwiceLosesAUnit`).
- A purchase recomputes the cost from the catalog price. It ignores the
  difficulty multiplier and any active cost event. A Charity Drive revert
  after such a purchase still divides the new cost by 0.75
  (`PurchaseDuringCharityDrive`).
- The balance cannot become negative in exact arithmetic. A purchase needs
  `waterPoints >= cost`, and every other step adds a non-negative amount or
  scales by a positive factor (`Sound` is kept by every method).

## Model

| member | source | states |
|---|---|---|
| `Catalog.CatalogFacts` | script.js:28-39 | the catalog has ten items with distinct keys; Bucket is the only click-type item; every price and increment is positive and every growth factor exceeds 1 |
| `Catalog.Items` | script.js:28-39 | the `baseUpgrades` list, entry for entry; its properties are the ensures of `CatalogFacts` |
| `Catalog.SettingFor` | script.js:55-59 | the difficulty multiplier is at least 1; the event chance is positive exactly on Hard |
| `Numbers.Ceil` | script.js:147 | `Math.ceil`: the result is the least integer not below its argument |
| `Numbers.Pow` | script.js:129 | `Math.pow` with a natural exponent is positive for a positive base, and at least 1 for a base of at least 1 |
| `Numbers.RollIndex` | script.js:165 | `Math.floor(Math.random() * n)` is a valid index below `n`, for any value in [0, 1) |
| `Economy.InitialIsSound` | script.js:41-47 | the initial `gameState` (0 drops, 1 per click, no upgrades) satisfies the invariant |
| `Economy.Initial` | script.js:41-47 | the `gameState` literal; `InitialIsSound` states it satisfies the invariant, and `Engine.Game.constructor` builds it |
| `Economy.Find` | script.js:123 | `find` returns the first matching index, and returns nothing exactly when no element matches |
| `Economy.FindKeySameKeys` | script.js:123 | a key lookup depends only on the keys of the entries, not on their costs or counts |
| `Economy.FindKey` | script.js:123 | `find(x => x.key === key)` as an instance of `Find`, whose ensures give the first match and the absence case |
| `Economy.StartEntries` | script.js:143-148 | a session start gives one entry per catalog item, in catalog order, with the item's key and increment, count 0, no mark, and cost exactly `Math.ceil(price × multiplier)`; balance and per-click gain are untouched |
| `Economy.HardWellCosts200` | script.js:143-148 | on Hard the Well's starting cost is 200 |
| `Economy.StartKeepsSound` | script.js:143-148 | a session start keeps the invariant: every new cost is positive |
| `Economy.NewEntry` | script.js:145-148 | one mapped catalog entry; its fields are stated by `StartEntries` |
| `Economy.StartUpgrades` | script.js:145-148 | the mapped catalog; stated entry by entry by `StartEntries` and `HardWellCosts200` |
| `Economy.Start` | script.js:142-148 | `startGame`'s state change; `StartEntries` states it and `StartKeepsSound` shows it keeps the invariant |
| `Economy.IdleOnly` | script.js:90 | the filter keeps only idle-type entries, every kept entry comes from the list, and every idle entry of the list is kept |
| `Economy.SumYields` | script.js:91 | the left-fold `reduce`; `SumYieldsAppend` splits it over concatenation |
| `Economy.PassiveIncome` | script.js:89-92 | `getPassiveIncome`; `PassiveIncomeIsIdleSum` equates it with the independent `TotalContribution` |
| `Economy.PassiveIncomeIsIdleSum` | script.js:89-92 | the passive income equals the sum of `count × increment` over idle entries, with click entries contributing nothing |
| `Economy.ClickEntryNeverContributes` | script.js:89-92 | changing the Bucket (a click entry), whatever its count, does not change the passive income |
| `Economy.PassiveIncomeNonNegative` | script.js:89-92 | in a sound state the passive income is never negative |
| `Economy.SingleOwnerIncome` | script.js:89-92 | when only one idle entry is owned, the income is that entry's `count × increment` |
| `Economy.ClickAddsPerClick` | script.js:95-99 | a click adds exactly the per-click gain, which is positive, leaves the gain and the entries unchanged, and keeps the invariant |
| `Economy.RegisterClick` | script.js:97 | the click handler's update; stated by `ClickAddsPerClick` |
| `Economy.IncomeTick` | script.js:135-139 | the loop body, with its `passive > 0` guard; stated by `TickAddsPassiveIncome` and `TwoTicksWithOnePump` |
| `Economy.TickAddsPassiveIncome` | script.js:135-139 | one tick adds exactly the passive income to the balance and changes nothing else |
| `Economy.TwoTicksWithOnePump` | script.js:135-139 | with one Pump and nothing else owned, two ticks add exactly 2, and a click between them adds only its own gain |
| `Economy.PurchaseChangesIff` | script.js:122-132 | a purchase changes the state if and only if the key exists and the balance covers the cost |
| `Economy.PurchaseRefused` | script.js:123-125 | an unknown key, or a cost above the balance, leaves the state unchanged |
| `Economy.PurchaseSucceeds` | script.js:125-129 | a successful purchase debits exactly the old cost, leaves the balance non-negative (and 0 when it equalled the cost), raises the count by 1, raises the per-click gain by the increment only for click entries, sets the cost to `ceil(baseCost × costScale^count)`, and changes no other entry |
| `Economy.CostAfterPositive` | script.js:129 | the recomputed cost is at least 1 |
| `Economy.CostAfter` | script.js:129 | the price formula; `CostAfterPositive` bounds it and `BucketPriceProgression` evaluates it |
| `Economy.Purchase` | script.js:122-132 | `buyUpgrade`; stated by `PurchaseChangesIff`, `PurchaseRefused`, `PurchaseSucceeds` and `PurchaseKeepsSound` |
| `Economy.PurchaseKeepsSound` | script.js:122-132 | a purchase keeps the invariant |
| `Economy.BucketPriceProgression` | script.js:122-132 | on Easy, two Bucket purchases cost 10 then 16, leave its price at 26 and raise the per-click gain from 1 to 3 |
| `Events.AllEventsListsEachOnce` | script.js:164 | the combined event list has eight entries, each event exactly once |
| `Events.AllEvents` | script.js:164 | the combined list; stated by `AllEventsListsEachOnce` |
| `Events.Duration` | script.js:183-251 | each event's `duration` (none for the two instant events); `RevertDelay` states the delay derived from it |
| `Events.RevertDelay` | script.js:168-170 | the revert runs after the event's own duration, or after 15 s if it has none; only events with a duration have a revert |
| `Events.Rescale` | script.js:195 | scaling a positive amount by a positive factor keeps it positive |
| `Events.RescaleInverse` | script.js:195-196 | dividing by a factor undoes multiplying by it, and the reverse |
| `Events.ScaleCostsRoundTrip` | script.js:195-196 | scaling every cost, then the inverse scaling, restores every entry |
| `Events.ScaleIdleRoundTrip` | script.js:202-203 | scaling every idle increment, then the inverse scaling, restores every entry |
| `Events.ScaleCosts` | script.js:195-196 | the cost `forEach` of Charity Drive (and of Supply Shortage, lines 243-244); `ScaleCostsRoundTrip` states its inverse and `Engine.Game.ScaleAllCosts` performs it in place |
| `Events.ScaleIdleIncrements` | script.js:202-203 | the idle-increment `forEach` of Volunteer Surge (and of Drought, lines 217-218); `ScaleIdleRoundTrip` states its inverse and `Engine.Game.ScaleAllIdleIncrements` performs it in place |
| `Events.Victims` | script.js:225 | Broken Pump's candidate list holds exactly the indices of owned idle entries, in increasing order |
| `Events.VictimsSameFilter` | script.js:225 | lists that pass the filter at the same positions have the same candidates |
| `Events.VictimPick` | script.js:227 | the random victim choice is always a valid candidate index |
| `Events.BreakHitsOneOwnedIdle` | script.js:224-230 | Broken Pump takes one unit from exactly the chosen owned idle entry and marks it; with no candidates it does nothing |
| `Events.BreakRepairRoundTrip` | script.js:224-237 | when no entry was marked, the Broken Pump revert restores the list exactly |
| `Events.Break` | script.js:224-230 | Broken Pump's effect; stated by `BreakHitsOneOwnedIdle` |
| `Events.FindFlagged` | script.js:232 | `find(u => u.tempLoss)` as an instance of `Find` |
| `Events.Repair` | script.js:231-237 | Broken Pump's revert; stated by `RepairOnlyMarked` and `BreakRepairRoundTrip` |
| `Events.RevertUndoesEffect` | script.js:183-251 | for every timed event, the revert right after the effect restores the whole state exactly, for Broken Pump provided no entry was already marked (the revert restores the first marked entry, script.js:232); instant events have no revert |
| `Events.Effect` | script.js:183-251 | every event's `effect`; stated by `RevertUndoesEffect`, `EffectKeepsSound` and `RainstormScenario` |
| `Events.Revert` | script.js:183-251 | every event's `revert`, the identity for the instant events; stated by `RevertUndoesEffect` and `RevertKeepsSound` |
| `Events.RainstormScenario` | script.js:184-190 | Rainstorm takes a per-click gain of 1 to 2, and its revert takes it back to 1 |
| `Events.EffectKeepsSound` | script.js:183-251 | no effect breaks the invariant; in particular Contaminated Source cannot make the balance negative |
| `Events.RevertKeepsSound` | script.js:183-251 | no revert breaks the invariant, whatever happened since the effect |
| `Events.RepairOnlyMarked` | script.js:231-237 | when exactly one entry is marked, the revert gives that entry back one unit, clears its mark and leaves every other entry alone |
| `Events.SameVictimTwiceLosesAUnit` | script.js:224-237 | two overlapping Broken Pumps on the same upgrade, followed by both reverts, leave it one unit short and unmarked, with every other entry unchanged |
| `Events.PurchaseDuringCharityDrive` | script.js:129 | after a purchase during Charity Drive and the revert, the bought entry's cost is the formula divided by 0.75, while every other entry is restored |
| `Engine.Game.constructor` | script.js:41-47 | the new object is the initial `gameState` and satisfies the invariant |
| `Engine.Game.StartGame` | script.js:142-153 | builds a fresh upgrade array equal to the session-start entries; reports that events start exactly on Hard |
| `Engine.Game.Click` | script.js:95-99 | adds the per-click gain to the balance in place |
| `Engine.Game.Tick` | script.js:135-139 | adds exactly the passive income to the balance in place |
| `Engine.Game.BuyUpgrade` | script.js:122-132 | updates the balance, the per-click gain and one array element in place, exactly as `Purchase` |
| `Engine.Game.ScaleAllCosts` | script.js:195-196 | the `forEach` loop rescales every cost in place and keeps the invariant |
| `Engine.Game.ScaleAllIdleIncrements` | script.js:202-203 | the `forEach` loop rescales every idle increment in place, leaves click entries alone and keeps the invariant |
| `Engine.Game.BreakPump` | script.js:224-230 | decrements and marks the chosen victim in place and keeps the invariant |
| `Engine.Game.RepairPump` | script.js:231-237 | restores and unmarks the first marked entry in place and keeps the invariant |
| `Engine.Game.ApplyEffect` | script.js:183-251 | runs the event's effect in place, giving exactly `Effect`, and keeps the invariant |
| `Engine.Game.RevertEffect` | script.js:168-170 | runs the event's revert, if it has one, in place, giving exactly `Revert`, and keeps the invariant |
| `Engine.Game.TriggerRandomEvent` | script.js:163-171 | picks the event at `floor(roll × 8)` in the combined list and applies its effect |

## Left out

- The ripple background (`spawnRipple`, `startRipples`): pure DOM animation.
- DOM rendering (`updateUI`, `createShopUI`, `showEventBanner`, `formatNumber`) and the start-screen button wiring: presentation only. The events' `name` and `desc` strings are only shown in the banner, so they are not modelled.
- Timers and randomness: `setInterval`, `setTimeout`, the 30–60 s roll interval and the 0.3 roll probability are not modelled. The caller decides which step runs when, and passes the values `Math.random()` would return (or the victim index) as parameters.
- IEEE-754 doubles: arithmetic is exact, so "the revert restores the state exactly" holds only in exact arithmetic. With doubles, `Math.pow(1.15, n)` and repeated ×0.75/÷0.75 round.
- `gameState.activeEvents`: it is initialised and never read or written again.
- An unknown difficulty name: `difficultySettings[mode]` would be undefined and the destructuring would throw. The model's `Difficulty` type has only the three modes the buttons send.
