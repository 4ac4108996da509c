# Dice roller session, modelled in Dafny

This project models the core of `react-rpg-dice`, a React widget that rolls
dice. Clicking a die button queues a pending roll and (re)starts a debounce
timer. When the timer elapses, or when the user presses Roll, every pending
die is rolled. Each result carries the bonus, and the whole batch goes to the
host's `callback` in a single call.

- `timeouts.dfy`, module `Timeouts`: `findTimeout` and the wait-duration rule.
  A timeouts object is modelled as its entries in enumeration order. JavaScript
  enumerates array-index keys (integers below 2^32 - 1) in ascending order
  (section 10.1.11.1 of ECMA-262).
  `TimeoutFor` is a reference definition that does not use a loop: the value
  just before the first entry whose value reaches the click count.
  `FindTimeout` is the source's loop, with its early return, proved equal to it.
- `session.dfy`, module `Session`: the `Roller` session as a class. Its fields
  are `clicks`, `bonus`, `loadingWidth`, the debounce timer (`debounce: Option<Timer>`,
  so at most one is ever scheduled), the progress interval (`intervalLive`),
  and `delivered`, the log of callback calls. Each handler is a method whose
  postcondition states the whole new state. `Batch` specifies what one drain
  hands to the callback. Every handler keeps the invariant `Valid()`. It says
  that no click is lost or rolled twice: the dice delivered so far, batch after
  batch, followed by the pending dice, are exactly the dice clicked, in order.
  It also says that a timer is scheduled exactly when clicks are pending, and
  that the roll function has been called once per delivered result.
- `scenarios.dfy`, module `Scenarios`: complete click sequences on a fresh
  `Roller`, with what the callback receives.
- `wrappers.dfy`: the `Option` type.

The die-roll function (`diceRollFn`, or the random `rollDie`) is a parameter,
`roll: (nat, int) -> int`. `roll(n, sides)` is what the function answers on
its `n`-th call of the session for a die of that size. This covers independent
random draws and a host function that keeps state. The session counts the
calls in `rollCalls`, and each die is rolled by the next call, in click order.
The callback is modelled by appending its argument to `delivered`. Timers do
not run by themselves: `TimerFires` is the event of the debounce timer
elapsing.

Where the code differs from what one might expect of such a widget, the model
follows the code:

- `findTimeout` compares the map's values, not its keys, with the number of
  clicks pending before the new click. So for `{1: 1, 3: 3}` the first two
  clicks get a 0 ms wait and the third gets 1000 ms (`Scenarios.ScheduledWaits`).
- The timer runs the `makeRolls` closure of the render in which its click was
  handled. A bonus change made after the last click is therefore not seen by a
  timer-driven roll. Roll uses the current bonus (`Scenarios.BonusAfterClick`).
- `makeRolls` does not reset `loadingWidth`.
- `rushRoll` on an empty buffer would call the callback with `[]`. Only the
  disabled Roll button prevents that (`PressRollButton`).

## Model

| member | source | states |
|---|---|---|
| `Timeouts.FirstAtLeast` | src/index.tsx:39-41 | the index where the walk stops: every earlier value is below the click count, and the value at the index (if any) is not |
| `Timeouts.TimeoutFor` | src/index.tsx:38-43 | the answer is 0 or a value of the map, and a value taken from the map is strictly below the click count |
| `Timeouts.FindTimeout` | src/index.tsx:36-44 | the loop with its early return computes exactly `TimeoutFor` for every map and count |
| `Timeouts.TimeoutForStopsAt` | src/index.tsx:39-43 | if entry `j` is the first whose value reaches the count, the answer is 0 when `j` is 0 and the value of entry `j - 1` otherwise |
| `Timeouts.TimeoutForBeforeFirst` | src/index.tsx:38-43 | an empty map, or one whose first value already reaches the count, gives 0 |
| `Timeouts.TimeoutForAllBelow` | src/index.tsx:39-43 | when every value is below the count, the answer is the last entry's value (in a key-sorted map, the entry with the largest key) |
| `Timeouts.TimeoutForMonotone` | src/index.tsx:36-44 | for non-negative ascending values, a larger click count never gives a smaller timeout |
| `Timeouts.ExampleSchedule` | src/index.tsx:36-44 | with `{1: 1, 3: 3}`: counts 0 and 1 give 0, counts 2 and 3 give 1, every count from 4 up gives 3 |
| `Timeouts.WaitDuration` | src/index.tsx:82-84 | 1000 ms without a map; otherwise 1000 times a map value below the count, or 0; always a multiple of 1000, and not negative when the values are not |
| `Session.Batch` | src/index.tsx:94-101 | one result per pending die, in click order, with that die's sides and the given bonus; the dice take successive calls of the roll function, starting at the given call number |
| `Session.BatchAppend` | src/index.tsx:94-101 | the batch of two stretches of clicks is the first stretch's batch followed by the second's, which continues the roll-call numbering |
| `Session.BatchInRange` | src/index.tsx:97 | if the roll function stays in `[1, sides]`, every result of a batch of positive dice does too, and all carry the same bonus |
| `Session.DiceOfBatch` | src/index.tsx:94-101 | a batch is rolled for exactly the pending dice, in click order |
| `Session.DiceOfAppend` | src/index.tsx:94-101 | the dice of two result lists joined are the two lists' dice joined |
| `Session.DeliverBatch` | src/index.tsx:102 | handing one more batch to the callback adds exactly the pending dice, in order, to the dice delivered so far, and one result per pending die |
| `Session.BuildResults` | src/index.tsx:94-101 | the `forEach`/`push` loop builds exactly `Batch` |
| `Session.Roller.constructor` | src/index.tsx:75-79 | a fresh session has no clicks, bonus 0, width 0, no timer, no interval, no callback calls and no roll calls |
| `Session.Roller.Waiting` | src/index.tsx:81 | `waiting`: true exactly when clicks are pending, which is exactly when the Roll button is enabled (`disabled={!waiting}`, line 162); in a valid session it holds exactly when a debounce timer is scheduled |
| `Session.Roller.CurrentTimeout` | src/index.tsx:80-84 | the render's `timeout` is `WaitDuration` of the configured map and the number of pending clicks |
| `Session.Roller.Click` | src/index.tsx:107-119 | one die appended at the end and earlier clicks kept in order; width 0; the one timer replaced by one whose wait is computed from the count before the click and which keeps the current bonus; bonus, interval and callback log unchanged |
| `Session.Roller.AdjustBonus` | src/index.tsx:86-90 | the bonus changes by exactly `amount`; nothing else changes |
| `Session.Roller.MakeRolls` | src/index.tsx:92-105 | the callback is called exactly once, with the batch of the pending dice rolled by the next roll calls; the buffer is empty afterwards; bonus, width, timer and interval are unchanged; no click is lost or duplicated |
| `Session.Roller.RushRoll` | src/index.tsx:143-152 | the timer and interval are cancelled; width becomes `max(old, 100)`; the pending dice are delivered with the current bonus; nothing stays pending |
| `Session.Roller.PressRollButton` | src/index.tsx:161-163 | with clicks pending it acts as `RushRoll` and delivers a non-empty batch; with none pending nothing changes and the callback is not called |
| `Session.Roller.TimerFires` | src/index.tsx:116-118 | a scheduled timer is spent and delivers a non-empty batch with the bonus it captured; when no timer is scheduled nothing is pending and nothing happens |
| `Session.Roller.SyncProgress` | src/index.tsx:122-141 | after the effect an interval is live exactly when clicks are pending; the session invariant is kept |
| `Scenarios.TwoClicksThenTimer` | src/index.tsx:107-119 | d6 then d20, then the timer elapses: one callback with both results, in click order |
| `Scenarios.ClickThenRush` | src/index.tsx:143-152 | d4 then Roll: one callback with the d4; buffer empty, width 100, no timer; a later timer event delivers nothing more |
| `Scenarios.IdleRollButton` | src/index.tsx:161-163 | Roll with nothing pending never calls the callback |
| `Scenarios.BonusAfterClick` | src/index.tsx:92-105 | a bonus change after the click is missed by the timer-driven roll and seen by Roll |
| `Scenarios.BonusUndo` | src/index.tsx:86-90 | `+1` then `-1` restores the bonus and leaves the pending die and the timer as they were |
| `Scenarios.ScheduledWaits` | src/index.tsx:82-84 | under `{1: 1, 3: 3}` three clicks schedule waits of 0, 0 and 1000 ms |
| `Scenarios.TwoCycles` | src/index.tsx:92-105 | two one-die cycles give two callbacks, and the second die takes the roll function's next call |
| `Scenarios.ProgressInterval` | src/index.tsx:122-151 | after a click the effect starts an interval; Roll clears it and the next effect does not restart it |

## Left out

- Rendering: JSX, `DieButton`, class names, button layout and the `dice` list (src/index.tsx:46-63, 154-200). These are presentation only.
- `rollDie`'s `Math.floor(Math.random() * sides) + 1`: floating-point randomness. It is the `roll` parameter, a sequence of draws indexed by call number. Its range is a hypothesis of `BatchInRange`.
- The progress tick `100 / (timeout / 10)` and its stop check (src/index.tsx:128-133). They use floating point, divide by zero when the timeout is 0, and read a stale `loadingWidth`. Only the explicit width resets (0 on click, at least 100 on Roll) and the interval handle are modelled.
- Real timing of `setTimeout`/`setInterval`, and React's batching of state updates. Handlers run against the latest render, and the timer's elapse is the explicit `TimerFires` event.
- Unmounting: the effect cleanup clears only the interval, and the debounce timer is not cleared. What a timer firing after unmount does is up to React, which is not part of this model.
- React Strict Mode, which may run the `setClicks` updater (and so the callback) twice.
- `console.log("roller")` and the `parseInt` of keys (src/index.tsx:9, 37). Keys are non-negative integers. Keys that are not array indices are not modelled. These are non-integer keys, negative keys and integers of 2^32 - 1 or more, which JavaScript enumerates in insertion order after the array indices. `Entry.key` is unbounded, so a `KeySorted` map is only the enumeration order when every key is below 2^32 - 1.
- Integer values only: map values, bonus and sides are mathematical integers, not IEEE doubles.
- rollup.config.js (bundler configuration) and example/src/App.tsx (a demo whose `timeoutMultipliers` and `orientation` props are not declared by `Roller`).
