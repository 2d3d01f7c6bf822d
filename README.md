# Clicker economy in Dafny

A model of the game logic of `click-it/Clicker.js`. That is a browser "incremental clicker": clicking an orb earns score, and buying upgrades raises what a click earns and adds passive income. The modelled part is the game record `S = {score, perClick, mult, autos, crit, best}` and what the page does to it:

- It creates the record and merges a previous save over it.
- The click handler adds `perClick`, or five times that on a critical roll.
- The 50 ms timer adds `cps()/20` and tracks the best rate.
- Three purchase buttons check a price, pay it and improve one stat.
- The reset button restores the defaults.

The pure helpers `priceMult`, `priceAuto`, `priceCrit` and `cps` are modelled too.

Three modules:

- `Pricing` (`pricing.dfy`): the price curves, the passive rate, `Math.round`, and the `toFixed(2)` rounding of the per-click value. All are functions on exact reals and integers.
- `GameState` (`state.dfy`): the record as a datatype, and loading and saving as a merge of optional fields. Each handler's effect is a transition function, and a run of handlers is the fold of those transitions. The lemmas cover loading, single steps and whole runs of events.
- `Clicker` (`game.dfy`): the class `Game`, whose fields are the record's fields. Its methods update those fields in place, as the handlers update `S`. Each method is proved to leave the object in exactly the state the matching `GameState` transition gives, and to keep the record sane. `Session` replays any sequence of handler calls on a fresh game.

Representation choices:

- `perClick` is kept in integer hundredths. `+(x*1.25).toFixed(2)` becomes the nearest hundredth of `1.25 * cents`. `toFixed` rounds the magnitude with halves going up and then restores the sign, so halves go up for non-negative values and away from zero for negative ones.
- `score`, `crit` and `best` are exact reals, and `mult` and `autos` are naturals.
- `priceMult(l)` is `floor(25 * 1.3^l)`, and `priceAuto(n)` is `floor(50 * 1.45^n)`, both evaluated exactly.
- `priceCrit` raises 1.9 to the power `Math.round(c*100)/5`, which is generally a fraction. The model avoids fractional powers: with `k = Math.round(c*100)`, the price is the unique natural `p` with `p^5 <= 200^5 * 1.9^k < (p+1)^5`. This is exactly `floor(200 * 1.9^(k/5))`, and the model computes it by an integer fifth-root search.

The crit price rounds before it divides (line 14): `Math.round(c*100)` gives the chance in whole percent, and only then is it divided by 5. So the exponent steps by 1/5, the price changes with every whole percent of crit chance rather than in 5-point bands, and at the starting chance 0.03 the price is `floor(200 * 1.9^0.6) = 293`, not the 380 an integer exponent of 1 would give. `Pricing.StartingPrices` proves the value 293.

## Model

| member | source | states |
|---|---|---|
| Pricing.JsRound | click-it/Clicker.js:14 | `Math.round`: the result is the integer within half of the argument, with halves going up |
| Pricing.PriceMult | click-it/Clicker.js:12 | the price is the floor of `25 * 1.3^level`, and at least 25 |
| Pricing.PriceAuto | click-it/Clicker.js:13 | the price is the floor of `50 * 1.45^count`, and at least 50 |
| Pricing.PriceMultStep | click-it/Clicker.js:12 | each multiplier level costs strictly more than the previous one |
| Pricing.PriceAutoStep | click-it/Clicker.js:13 | each auto-clicker costs strictly more than the previous one |
| Pricing.PriceMultMonotone | click-it/Clicker.js:12 | `priceMult(0) = 25`; the price is non-decreasing in the level, and strictly increasing for distinct levels |
| Pricing.PriceAutoMonotone | click-it/Clicker.js:13 | `priceAuto(0) = 50`; the price is non-decreasing in the count, and strictly increasing for distinct counts |
| Pricing.CritExponent | click-it/Clicker.js:14 | the exponent is a multiple of 1/5, and five times it is within half of the crit chance in percent |
| Pricing.Root5 | click-it/Clicker.js:14 | the result `r` is the integer fifth root: `r^5 <= x < (r+1)^5` |
| Pricing.PriceCrit | click-it/Clicker.js:14 | `p^5 <= 200^5 * 1.9^k < (p+1)^5` with `k = Math.round(c*100)`, which means `p = floor(200 * 1.9^(k/5))` |
| Pricing.Cps | click-it/Clicker.js:15 | the passive rate is at least the number of auto-clickers, and 0 when there are none |
| Pricing.CpsMonotone | click-it/Clicker.js:15 | the passive rate is non-decreasing in both the auto count and the multiplier level |
| Pricing.NextPerClick | click-it/Clicker.js:36 | the new value is the nearest hundredth to 1.25 times the old one (halves: up for values >= 0, away from zero for negative ones); it never decreases for a non-negative value, and it strictly grows from 0.02 up |
| Pricing.StartingPrices | click-it/Clicker.js:12-15 | `priceMult` is 25 then 32, and `priceAuto` is 50 then 72; the crit exponent is 0.6 at 0.03 and 1 at 0.05; `priceCrit(0.03) = 293`; a tick with 2 autos at level 3 earns 0.13; the per-click value goes from 1.00 to 1.25, and from 14.54 to 18.18 |
| GameState.Load | click-it/Clicker.js:4-5 | a missing or unparseable save gives the defaults; for a parsed save, each present field overrides its default and each absent field keeps it |
| GameState.Serialize | click-it/Clicker.js:34 | the saved record holds every one of the six fields |
| GameState.LoadSaveRoundTrip | click-it/Clicker.js:4-5 | loading a saved record restores it exactly; an empty slot, an unparseable slot, or a save with no fields each loads as the defaults |
| GameState.Click | click-it/Clicker.js:28-29 | the score grows by exactly `5*perClick` when the roll is below `crit`, and by `perClick` otherwise; nothing but the score changes; the score never falls when `perClick >= 0` |
| GameState.Tick | click-it/Clicker.js:33 | the score grows by `cps()/20`; afterwards `best >= cps()`; `best` never decreases and is either the old best or the rate; the other fields and the rate are unchanged |
| GameState.BuyMult | click-it/Clicker.js:36 | if the score is below `priceMult(mult)`, the state is unchanged; otherwise exactly the price is paid, `mult` grows by 1, `perClick` is scaled by 1.25 and rounded, and `autos`, `crit` and `best` are unchanged; the score stays non-negative |
| GameState.BuyAuto | click-it/Clicker.js:37 | if the score is below `priceAuto(autos)`, the state is unchanged; otherwise exactly the price is paid, `autos` grows by 1, and nothing else changes; the score stays non-negative |
| GameState.BuyCrit | click-it/Clicker.js:38 | the state is unchanged unless the score covers `priceCrit(crit)` and `crit < 0.5`; otherwise exactly the price is paid and `crit` becomes `min(0.5, crit + 0.02)`, and nothing else changes; `crit` never decreases, never rises above 0.5, and is frozen once it reaches 0.5 |
| GameState.StepPreservesSane | click-it/Clicker.js:28-42 | every handler keeps the score and the best rate non-negative, `perClick` positive, and `crit` within [0.03, 0.5] |
| GameState.RunPreservesSane | click-it/Clicker.js:28-42 | the same holds for any sequence of handler calls |
| GameState.ReachableIsSane | click-it/Clicker.js:4-42 | the defaults are sane, and so is every record reachable from them by any sequence of clicks, ticks, purchases and resets |
| GameState.RunMonotone | click-it/Clicker.js:28-38 | without a reset, `mult`, `autos`, `crit`, `best` and a non-negative `perClick` never decrease |
| GameState.CritCapIsFinal | click-it/Clicker.js:38 | at `crit >= 0.5`, any number of crit purchases leaves the state unchanged |
| GameState.TicksKeepBest | click-it/Clicker.js:33 | after one or more ticks, `best` is at least the rate and at least its old value, and the rate is unchanged |
| GameState.RateDependsOnUpgrades | click-it/Clicker.js:15 | two records with the same `autos` and `mult` have the same rate |
| GameState.ResetIsFirstVisit | click-it/Clicker.js:42 | a reset yields exactly the record a first visit with an empty save starts with |
| GameState.FirstMultiplier | click-it/Clicker.js:36 | from the defaults, buying a multiplier is a no-op; with a score of 25, it yields `mult = 1`, `score = 0` and `perClick = 1.25` |
| GameState.TickScenario | click-it/Clicker.js:33 | with 2 auto-clickers at level 3, a tick adds exactly 0.13 |
| Clicker.Game.constructor | click-it/Clicker.js:4-5 | the new game's record is the defaults merged with the save slot, as `Load` describes |
| Clicker.Game.Click | click-it/Clicker.js:27-31 | mutating the score in place yields exactly `GameState.Click` of the old record and the roll, and keeps the record sane |
| Clicker.Game.Tick | click-it/Clicker.js:33 | mutating in place yields exactly `GameState.Tick` of the old record; afterwards `best >= cps()` and `best` has not decreased |
| Clicker.Game.BuyMult | click-it/Clicker.js:36 | mutating in place yields exactly `GameState.BuyMult` of the old record, and keeps the record sane |
| Clicker.Game.BuyAuto | click-it/Clicker.js:37 | mutating in place yields exactly `GameState.BuyAuto` of the old record, and keeps the record sane |
| Clicker.Game.BuyCrit | click-it/Clicker.js:38 | mutating in place yields exactly `GameState.BuyCrit` of the old record; `crit` stays at most 0.5 |
| Clicker.Game.Reset | click-it/Clicker.js:40-45 | the record becomes exactly the defaults, which equal the first-visit record |
| Clicker.Game.Save | click-it/Clicker.js:34 | what is written to storage is the full six-field record of the current state, and it loads back as that state |
| Clicker.Session | click-it/Clicker.js:27-45 | running any sequence of handlers on a fresh game gives `Run(Defaults, es)`, a sane record |

## Left out

- Display: the DOM lookups (lines 7-10), `ui()` (lines 17-24) and the number formatting `fmt` (line 2) only render the state.
- Timers: the 50 ms and 1500 ms `setInterval` schedules (lines 33-34) belong to the host. Only the tick body and the record that is written are modelled.
- Persistence: `localStorage` and `JSON.parse`/`JSON.stringify` (lines 5, 34 and 43) are host library calls. A save is modelled as a record of optional fields, and a failed parse as the `Unparseable` slot. A parse that yields a non-object, such as `null` or a number, behaves like `NoFields`.
- Save contents: fields of the wrong type are outside the model. Examples are a negative or fractional `mult` or `autos`, a `perClick` that is not a whole number of hundredths, or a string. So are unknown extra keys: `Object.assign` copies them into `S`, and `JSON.stringify` (line 34) writes them back on every save until a reset (line 42) replaces `S`, but no handler reads them. The model's record has no place for them.
- Randomness: `Math.random()` (line 28) is the caller-supplied `roll`.
- The confirmation dialog (line 41) is UI, so `Reset` is unconditional.
- IEEE-754 arithmetic: `Math.pow` rounding, drift in `crit + 0.02`, and the binary representation that `toFixed` sees are not modelled. All arithmetic is exact, so a price or a rounded per-click value can differ from the browser's where a double falls just below an integer or a half. On the default path the first such case is the thirteenth multiplier: the exact product 14.54 * 1.25 = 18.175 is a half, which the model rounds up to 18.18, while the double product lies just below 18.175, so the browser shows 18.17. All later per-click values follow from that one.
