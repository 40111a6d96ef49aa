# Byte Clicker: a verified model of the idle-game simulation

Byte Clicker is an incremental "clicker" game. A desktop window hosts a web
page, and all of the game logic lives in the script embedded in that page
(`main.py`, the `<script>` block inside `WebWindow.load_html`). The game state
is one record:

- `bytes`: the bytes the player can spend;
- `total_bytes`: the bytes earned over the whole game;
- `clicks`: the manual click count;
- seven generator tiers, each with a base cost, a current price, an owned
  count, a per-unit production and an unlock flag;
- three timestamps: `last_save`, `game_start` and `last_update`.

The player clicks for bytes and buys generators. Generators produce bytes
every tick. After each purchase a tier's price is recomputed from its base
cost as `ceil(base_cost * 1.15^count)`, so base cost 10 gives prices 10, 12,
14, ... A tier unlocks
once the tier before it has five units.

This project models that simulation in Dafny and proves what it promises.

- `generators.dfy` (module `Generators`) holds the generator record and the
  seven-tier catalogue. It also defines the price curve
  `ceil(base_cost * 1.15^count)`, with `Pow` and `Ceil` written out, the click
  bonus, and the production rate.
- `rules.dfy` (module `Rules`) holds the game state as a value. Each handler
  is a function from the old state to the new one: `Clicked`, `Purchased`,
  `Ticked`, `Restarted`, `Saved`, `Loaded`, and `Unlocks` for `check_unlocks`.
  The invariants are `Consistent` (every tier on its price curve, the unlock
  chain, `0 <= bytes <= total_bytes`) and `Progressed` (nothing earned is
  lost). The lemmas prove that a click, a purchase and a tick forward in time
  keep both invariants. The byte bounds `0 <= bytes <= total_bytes` are also
  proved on their own, under weaker hypotheses. A confirmed new game is
  consistent. Loading what a save wrote gives back the saved game. A load of
  an arbitrary saved game is not proved consistent, since the save file can
  hold any state. A new game resets progress by design.
- `session.dfy` (module `Session`) holds the class `Game`. It is the page's
  global `game_state`, updated in place by methods. Each method is proved to
  reach the state that the matching `Rules` function computes. The unlock pass
  is a loop with invariants.
- `timeformat.dfy` (module `TimeFormat`) holds `format_time`: the split of
  milliseconds into hours, minutes and seconds, and the decimal rendering of
  the three numbers.

Clock readings (`Date.now()`) are parameters named `now`. The player's answer
to the new-game confirmation dialog is the parameter `confirmed`. What the
save file held is a `SaveData` value.

Three behaviours of the code are easy to misread, and the model keeps them as
written:

- `buy_generator` has no bounds check on `id` (main.py:364). An unknown id
  makes the handler throw before it changes anything; it is not a silent
  no-op. `Game.Buy` reports that case as the outcome `Threw` and leaves the
  state as it was.
- `game_loop` does not clamp a negative elapsed time (main.py:432). If the
  clock goes back, `Ticked` removes bytes from both counters. The invariant
  lemmas about ticks therefore assume `now >= last_update`.
- `click_byte` also runs `check_unlocks` (main.py:351). In a consistent state
  this changes nothing (`Rules.ClickKeepsConsistent`).

## Model

| member | source | states |
|---|---|---|
| `Generators.Pow` | main.py:368 | `1.15^n` as a recursive product; at least 1 for a base of at least 1 |
| `Generators.Ceil` | main.py:368 | `Math.ceil`: the result is the least integer not below x (`x <= r < x + 1`) |
| `Generators.CostAt` | main.py:368 | the price after `count` purchases is never below the base cost, and equals it at count 0 |
| `Generators.CostRises` | main.py:367-368 | for every catalogue base cost (at least 7), each purchase strictly raises the price |
| `Generators.CostAtLeastLinear` | main.py:367-368 | with n units owned, the price is at least base cost + n |
| `Generators.ClickMultiplier` | main.py:354-356 | the click bonus is a non-negative multiple of 0.1 and equals 0.1 × floor(auto clickers / 10) |
| `Generators.ClickYield` | main.py:347-348 | a click yields 1 plus the click bonus, so at least one byte |
| `Generators.Rate` | main.py:358-361 | the sum of count × base production from the first tier to the last; its properties are in `RateNonNegative`, `RateReplace`, `RateOfSameOutputs` and `Rules.RateZero` |
| `Generators.RateNonNegative` | main.py:358-361 | the production rate is non-negative when every per-unit production is |
| `Generators.RateReplace` | main.py:358-361 | the rate is linear in each generator: replacing one changes the rate by exactly the difference of their outputs |
| `Generators.RateOfSameOutputs` | main.py:358-361 | the rate depends only on each generator's count × production, not on prices or unlock flags |
| `Generators.CatalogueFacts` | main.py:318-326 | the seven tiers have ids 0..6, count 0, price = base cost ≥ 10, positive production, and only tier 0 unlocked |
| `Rules.Fresh` | main.py:314-329 | the initial game, with the catalogue and all timestamps set to now; `FreshIsConsistent` proves it is consistent, closed under the unlock pass and has rate 0 |
| `Rules.Clicked` | main.py:346-352 | click_byte on values; `ClickKeepsConsistent`, `ClickKeepsByteBounds` and `FirstClick` state its properties |
| `Rules.PurchaseOutcome` | main.py:363-382 | Threw for an absent id, Bought when the guard holds, Ignored otherwise; `DeclinedPurchaseIsNoOp` ties it to the unchanged state |
| `Rules.Purchased` | main.py:363-382 | buy_generator on values; `PurchaseEffect`, `PurchaseRaisesRate`, `PurchaseKeepsConsistent`, `PurchaseKeepsByteBounds` and `DeclinedPurchaseIsNoOp` state its properties |
| `Rules.Ticked` | main.py:430-437 | game_loop on values, with the unclamped delta; `TickKeepsConsistent`, `TickKeepsByteBounds` and `TenSecondsAtTwoPerSecond` state its properties |
| `Rules.Restarted` | main.py:442-466 | new_game on values; `RestartResets` states its properties |
| `Rules.Saved` | main.py:468-471 | save_game stamps `last_save`; `SaveLoadRoundTrip` states that a load gives the saved game back |
| `Rules.Loaded` | main.py:483-499 | load_game on values; `SaveLoadRoundTrip`, `LoadKeepsStateOnNoSave` and `LoadOpensGates` state its properties |
| `Rules.Unlocks` | main.py:384-394 | the unlock pass only sets unlock flags; it never re-locks; it unlocks every tier whose predecessor has ≥ 5 units, and nothing else |
| `Rules.UnlocksIdempotent` | main.py:384-394 | a second unlock pass changes nothing |
| `Rules.ChainIsFixedPoint` | main.py:384-394 | when every flag already matches the gate, the pass changes nothing |
| `Rules.UnlocksKeepRate` | main.py:358-361 | the unlock pass leaves the production rate unchanged |
| `Rules.TiersProduce` | main.py:318-326 | every generator on the catalogue curve has non-negative production |
| `Rules.FreshIsConsistent` | main.py:314-329 | the initial game is consistent, its unlock pass opens nothing, and its rate is 0 |
| `Rules.RateZero` | main.py:358-361 | with no units owned the rate is 0 |
| `Rules.ClickKeepsConsistent` | main.py:346-352 | a click adds the same yield (≥ 1) to `bytes` and `total_bytes`, adds 1 to `clicks`, leaves the generators unchanged, keeps consistency and loses no progress |
| `Rules.DeclinedPurchaseIsNoOp` | main.py:363-365 | a purchase that is unaffordable, locked or out of range leaves the whole state unchanged, so repeating it is a no-op |
| `Rules.BumpKeepsChain` | main.py:363-394 | adding one unit and then running the unlock pass keeps "unlocked iff i = 0 or predecessor has ≥ 5 units" |
| `Rules.BumpKeepsTiers` | main.py:367-368 | repricing the bought tier keeps every tier on `ceil(base_cost × 1.15^count)` |
| `Rules.PurchaseEffect` | main.py:363-368 | a successful purchase subtracts the old price (bytes stay ≥ 0), adds one unit and sets a strictly higher price `ceil(base_cost × 1.15^count)`; the other generators (except the next tier's unlock flag), `total_bytes`, `clicks` and the timestamps are unchanged |
| `Rules.BumpRaisesRate` | main.py:358-368 | adding one unit to a tier and then running the unlock pass raises the rate by exactly that tier's base production |
| `Rules.PurchaseRaisesRate` | main.py:358-368 | a purchase raises the rate by exactly the bought tier's base production |
| `Rules.PurchaseKeepsConsistent` | main.py:363-382 | every purchase call keeps consistency and loses no progress |
| `Rules.TickKeepsConsistent` | main.py:430-437 | a tick with `now >= last_update` adds rate × (now − last_update)/1000 (≥ 0) to both byte counters, sets `last_update = now`, keeps consistency and loses no progress |
| `Rules.PurchaseKeepsByteBounds` | main.py:363-366 | in any state with `0 <= bytes <= total_bytes`, a purchase keeps those bounds |
| `Rules.ClickKeepsByteBounds` | main.py:346-349 | in any state with `0 <= bytes <= total_bytes`, a click keeps those bounds |
| `Rules.TickKeepsByteBounds` | main.py:430-437 | with non-negative production and time moving forward, a tick keeps `0 <= bytes <= total_bytes` |
| `Rules.RestartResets` | main.py:442-466 | a confirmed new game has zero bytes and clicks, every count 0 and price = base cost, only tier 0 unlocked, and is the initial game; an unconfirmed one changes nothing |
| `Rules.SaveLoadRoundTrip` | main.py:468-492 | loading what a save wrote restores the saved game, except that `last_update` is reset to now; it needs only the unlock chain, so a game with negative bytes after a backward clock step round-trips too |
| `Rules.LoadKeepsStateOnNoSave` | main.py:486-496 | unparsable text or an empty object leaves the running game unchanged |
| `Rules.LoadOpensGates` | main.py:488-492 | after a load, every tier whose predecessor has ≥ 5 units is unlocked |
| `Rules.FirstClick` | main.py:346-349 | one click on a fresh game gives `bytes = total_bytes = 1` and `clicks = 1` |
| `Rules.TenAutoClickers` | main.py:354-356 | with ten auto clickers a click yields 1.1 bytes |
| `Rules.FifthUnitOpensNextTier` | main.py:363-394 | buying the fifth unit of a tier unlocks the next tier in the same call; it was locked before |
| `Rules.TenSecondsAtTwoPerSecond` | main.py:430-437 | ten seconds at two bytes per second add exactly 20 bytes |
| `Session.Game.constructor` | main.py:314-329 | the page-load game is the initial state and is consistent |
| `Session.Game.CheckUnlocks` | main.py:384-394 | the in-place pass over the tiers leaves the generators as `Unlocks` computes, and everything else unchanged |
| `Session.Game.Click` | main.py:346-352 | the new state is `Clicked(old state)`; consistency is kept and the generators are unchanged |
| `Session.Game.Buy` | main.py:363-382 | the new state is `Purchased(old state, id)`; the outcome is Bought, Ignored (nothing changed) or Threw (no such id, nothing changed); consistency is kept |
| `Session.Game.Tick` | main.py:430-440 | the new state is `Ticked(old state, now)`; consistency is kept when time moves forward |
| `Session.Game.Save` | main.py:468-471 | stamps `last_save` and returns the record that is written |
| `Session.Game.NewGame` | main.py:442-466 | the new state is `Restarted(old state, confirmed, now)`; when confirmed, it is the consistent initial game |
| `Session.Game.Load` | main.py:483-499 | the new state is `Loaded(old state, data, now)` |
| `TimeFormat.Split` | main.py:423-428 | minutes < 60, seconds < 60 and `h×3600 + m×60 + s = floor(ms/1000)` |
| `TimeFormat.SplitInvertsMillis` | main.py:423-428 | every reading with m, s < 60 is what `Split` gives for each millisecond of that second |
| `TimeFormat.DigitChar` | main.py:427 | a digit's character is in '0'..'9' and has that digit's value |
| `TimeFormat.Decimal` | main.py:427 | a number renders as a non-empty string of digits, with no leading zero |
| `TimeFormat.DecimalRoundTrip` | main.py:427 | reading back the rendered digits gives the number |
| `TimeFormat.FormatTimeShape` | main.py:423-428 | the text is `<h>h <m>m <s>s`; each part reads back as its component; minutes and seconds take at most two digits |
| `TimeFormat.FormatTime` | main.py:423-428 | format_time: the three components of `Split` rendered as `<h>h <m>m <s>s`; `FormatTimeShape` states its properties |
| `TimeFormat.ShortDecimal` | main.py:427 | numbers below 100 take at most two digits |

## Left out

- The desktop shell is not modelled: the window, centring, web-channel setup and reading `qwebchannel.js` (main.py:67-116, 543-549). It is UI wiring.
- The host's file save and load (main.py:24-42) are not modelled. They are whole-file I/O with errors turned into strings. A load is the `SaveData` parameter: `Malformed` for text that does not parse, `EmptyObject` for `{}`, or `Snapshot` for a saved game.
- JSON encoding is not modelled. A `Snapshot` stands for a parsed object with every field present and well formed. A non-empty object with missing or malformed fields replaces the state in the source too, but the model cannot express it.
- The `window.bridge` checks in `save_game` and `load_game` are not modelled. The model assumes the bridge exists. The asynchronous promise of a save is not modelled either.
- The About and Exit dialogs (main.py:44-65, 501-511) are not modelled. They only show a dialog or quit.
- `update_display`, the HTML templates and the purchase highlight with its timer (main.py:370-377, 396-421, 520-538) are not modelled. They are presentation only.
- `format_number` (main.py:337-344) is not modelled. It is float formatting with `toFixed`.
- The two `setInterval` timers (main.py:517-518) are not modelled. A tick is an explicit `Tick(now)` call, and a save is a `Save(now)` call.
- Bytes, production and prices are exact reals, not IEEE-754 doubles. `Math.pow(1.15, n)` and the multiples of 0.1 may round differently in the source. So a float price could in rare cases differ by one from `CostAt`.
- `Session.Game.NewGame` reads the clock once. In the source, `save_game` reads it again for `last_save`, a few milliseconds later. Likewise, the constructor uses one `now` for the three page-load timestamps.
- `TimeFormat.Split` takes a non-negative duration. If the clock went back before `game_start`, JavaScript's truncating `%` would show negative minutes and seconds; the model does not cover that.
- Generators are values in a sequence that is reassigned. The source mutates generator objects through a shared reference, and that aliasing is not modelled.
- `Session.Game.Click` requires at least one generator: with none, `get_click_multiplier` throws in the source before anything changes.
