# Round timer: timekeeping and round periods

A Dafny model of the state engine of a wrist-watch interval timer. The timer
alternates rounds and rests, and warns shortly before a round ends. The model
covers these parts:

- **Running clock.** An elapsed time advanced by a 100 ms update timer.
  Whenever the watch's coarser clock moves on, the elapsed time is
  re-anchored against it.
- **Period derivation.** The period (round, warning or rest) and the
  countdown left in it are derived from the elapsed time and the three
  configured durations. A vibration is asked for whenever the period changes.
- **Lap ring.** The last five lap durations are kept in a ring. A counter
  locks lap and reset while the lap animations run.
- **Duration editor.** A configuration window selects one of six
  minute/second fields, or "Start", and raises or lowers the selected
  duration within `[0, MAX_TIME]`.

Modules, one concern each:

| file | module | models |
|---|---|---|
| `c_arith.dfy` | `CArith` | C's truncating `/` and `%`, and the division facts the proofs use |
| `cycle.dfy` | `Cycle` | `single_round_running_time`, `get_round_period`, `current_counter` |
| `display.dfy` | `Display` | the hours/minutes/seconds/tenths split of `update_stopwatch` and its overflow stop |
| `clock.dfy` | `DriftClock` | the drift correction inside `handle_timer`, as a pure step function |
| `config.dfy` | `Config` | `config.c`: `MAX_TIME`, `selection`, `change_selection`, `go_up`, `go_down`, `update_text_digits` |
| `stopwatch.dfy` | `Stopwatch` | the `stopwatch.c` globals as class `Stopwatch` and its handlers, plus the lap ring as functions |
| `config_window.dfy` | `ConfigWindow` | `make_watch_go`, `window_appear`, and the "Start" path of `go_up`/`go_down` into the stopwatch |

State that the C code keeps in module globals lives in two classes:
`Config.Durations` holds the editor's globals and `Stopwatch.Stopwatch` holds
the stopwatch's. The stopwatch reads the durations through its `config`
field. Each state-changing handler is a method whose postcondition gives the
whole new state. For the clock, that state is given through the pure
function `DriftClock.Tick`. For the lap slots, it is given through
`Stopwatch.RecordLap`. For the period, it is given through `Cycle.PeriodAt`
and `Cycle.CounterAt`. The lemmas about those functions carry the
properties.

## Behaviour worth knowing

- **Exact multiples of the cycle.** The reduction loop tests
  `running_time > full_round`, so an elapsed time that is a positive multiple
  of `round_time + rest_time` stays at position `full_round`. That position
  is the end of a rest with 0 left, not the start of the next round
  (`Cycle.CycleBoundaryIsRest`). With a 30 s round and a 10 s rest, 40000 ms
  is still rest and 40001 ms is round (`Cycle.ThirtyTenScenario`).
- **Zero-length cycle.** There is no guard for a zero-length cycle. With
  `round_time + rest_time == 0` and a positive elapsed time, the loop never
  ends (`Cycle.ZeroCycleNeverHalts`). Every operation that reaches the loop
  therefore requires `Cycle.Halts`.
- **Drift correction.** The correction does not snap the elapsed time onto
  the watch clock. At the first advance of the watch clock it records the
  offset `pebble_time - elapsed_time`. Later advances set
  `elapsed_time = pebble_time - start_time`. From a fresh start, samples of
  0, 0, 1000, 1000 and 2000 ms leave 500 ms, not 2000 ms
  (`DriftClock.FreshStartSamples`). A correction can move the elapsed time
  backwards (`DriftClock.CorrectionCanRegress`).
- **Hours overflow.** The overflow stop in `update_stopwatch` looks at the
  countdown, not at the elapsed time. With durations within the editor's
  range the countdown stays below two hours, so the stop is never taken
  (`Display.CounterNeverOverflows`).
- **Busy lock.** The lock is a counter, not a flag. `reset_stopwatch` is
  guarded only when called from the reset button. When the configuration
  window reappears while a lap's five animations are still running, the
  reset sets the counter to 5 with ten animations in flight. Once all ten
  stop, the counter reads -5, and lap and reset are ignored until the next
  reset (`ConfigWindow.ResetDuringLapAnimation`).
- **Reset leaves slot texts.** Reset clears the lap log and moves the slot
  cursor back to 0. It leaves the slot texts as they were, because they are
  animated away rather than overwritten.
- **`MAX_TIME`.** It is `99*60000+59` = 5940059 ms. That displays as 99:00.
  At 99:00, a press on a seconds field adds 59 ms and changes nothing on
  screen (`Config.CeilingShowsNinetyNineMinutes`). The literal is modelled
  as written.
- **No session target.** There is no round target, no completed-round
  counter and no session-complete event in the code, so none is modelled.

## Model

| member | source | states |
|---|---|---|
| `CArith.CDiv` | src/stopwatch.c:242-245 | C's quotient for a positive divisor: truncated toward zero, equal to Euclidean division for a non-negative dividend |
| `CArith.CMod` | src/stopwatch.c:242-244 | C's remainder: `a == b*q + r`, the sign follows the dividend, and it equals Euclidean `%` for a non-negative dividend |
| `Cycle.Period.Code` | src/stopwatch.c:328-342 | round, warning and rest are returned as 0, 1 and 2 |
| `Cycle.CyclePosition` | src/stopwatch.c:320-326 | the position the loop leaves: the elapsed time itself when it is at most one cycle, otherwise a value in `(0, full]` |
| `Cycle.SingleRoundRunningTime` | src/stopwatch.c:320-326 | the subtraction loop terminates whenever `Halts` holds and returns `CyclePosition` |
| `Cycle.CycleDecomposition` | src/stopwatch.c:320-326 | completed cycles times cycle length plus position equals the elapsed time, so the position is congruent to it modulo the cycle |
| `Cycle.PositionClosedForm` | src/stopwatch.c:320-326 | for positive elapsed time and cycle, the position is `(elapsed - 1) mod full + 1` |
| `Cycle.ZeroCycleNeverHalts` | src/stopwatch.c:322-323 | with a cycle of length 0 or less and a larger elapsed time, the loop test still holds after any number of passes |
| `Cycle.PeriodOf` | src/stopwatch.c:328-342 | rest exactly when position >= round_time; warning exactly when position < round_time, warning_time != 0 and position > round_time - warning_time; otherwise round |
| `Cycle.Remaining` | src/stopwatch.c:344-352 | the countdown is non-negative for a position within the cycle, at most round_time in a round and at most rest_time in a rest, and reaches 0 only in a rest |
| `Cycle.CounterBounds` | src/stopwatch.c:344-352 | for non-negative inputs the countdown lies in `[0, max(round_time, rest_time)]` |
| `Cycle.PeriodMatchesCounter` | src/stopwatch.c:328-352 | round and warning have time left; a warning has less than warning_time left; a round with a warning configured has at least warning_time left |
| `Cycle.CycleBoundaryIsRest` | src/stopwatch.c:320-352 | at every positive multiple of the cycle the position is the full cycle, the period is rest and the countdown is 0 |
| `Cycle.PeriodAt` | src/stopwatch.c:328-342 | within the first cycle (elapsed <= round_time + rest_time) the period is rest exactly when elapsed >= round_time, and warning exactly when elapsed < round_time, warning_time != 0 and elapsed > round_time - warning_time |
| `Cycle.CounterAt` | src/stopwatch.c:344-352 | within the first cycle the countdown is round_time - elapsed during the round and round_time + rest_time - elapsed during the rest |
| `Cycle.Periodic` | src/stopwatch.c:320-352 | for a positive elapsed time and a positive cycle, period and countdown are the same one cycle later |
| `Cycle.ThirtyTenScenario` | src/stopwatch.c:320-352 | with 30 s round, 5 s warning and 10 s rest: round at 24999 and 25000, warning at 25001, rest with 9999 left at 30001, rest with 0 left at 40000, round at 40001 |
| `Display.Split` | src/stopwatch.c:240-245 | for a non-negative countdown: tenths < 10, seconds < 60, minutes < 60, hours >= 0 |
| `Display.SplitRecomposes` | src/stopwatch.c:242-245 | `hours*3600000 + minutes*60000 + seconds*1000 + tenths*100 + t%100 == t` |
| `Display.Overflows` | src/stopwatch.c:245-251 | the `hours > 99` test holds exactly when the value is at least 100 hours |
| `Display.OverflowThreshold` | src/stopwatch.c:245-248 | the hours field exceeds 99 exactly when the value is at least 100 hours |
| `Display.CounterNeverOverflows` | src/stopwatch.c:240-251 | with durations in `[0, MAX_TIME]` the countdown shows at most one hour and never overflows |
| `DriftClock.Tick` | src/stopwatch.c:375-387 | the last sample becomes the new sample when it was unset or exceeded, and is kept otherwise; the anchor is either kept or, when unset, chosen so that anchor plus elapsed equals the sample |
| `DriftClock.RearmInterval` | src/stopwatch.c:388 | re-arm at 100 ms exactly when elapsed <= 3600000, otherwise at 1000 ms |
| `DriftClock.TickElapsed` | src/stopwatch.c:375-387 | elapsed grows by exactly 100 unless the sample advanced and the anchor is set; in that case elapsed becomes sample minus anchor and the anchor stays |
| `DriftClock.FirstAdvanceAnchors` | src/stopwatch.c:378-383 | the first advance only sets `start_time = pebble_time - elapsed_time`, leaving elapsed at its optimistic value |
| `DriftClock.LastSampleOnlyRaised` | src/stopwatch.c:378-386 | once set, `last_pebble_time` never decreases and changes only on an advance |
| `DriftClock.CorrectionCanRegress` | src/stopwatch.c:384 | a correction can lower `elapsed_time` (5000 to 4500) |
| `DriftClock.SnapOnAdvance` | src/stopwatch.c:379-386 | once anchored, a tick that sees the watch clock advance leaves no drift: elapsed is sample minus anchor |
| `DriftClock.RunDriftBounded` | src/stopwatch.c:371-388 | over any run of samples an anchored clock keeps its anchor, keeps the largest sample, and drifts by at most 100 ms per tick |
| `DriftClock.FreshStartSamples` | src/stopwatch.c:375-387 | samples 0, 0, 1000, 1000, 2000 from a fresh start give elapsed 500, anchor 1500, last sample 2000 |
| `Config.StepSelection` | src/config.c:133-144 | from any selection and direction with a single wrap, the result is in `[0, 6]` and congruent to selection + direction mod 7 |
| `Config.Increment` | src/config.c:160-163 | even fields step by 60000 (minutes), odd fields by 1000 (seconds) |
| `Config.Raise` | src/config.c:166-175 | `min(old + incr, MAX_TIME)`; from `[0, MAX_TIME]` with a positive step it stays in range and never decreases |
| `Config.Lower` | src/config.c:194-203 | `max(old - incr, 0)`; from `[0, MAX_TIME]` with a positive step it stays in range and never increases |
| `Config.MinutePart` | src/config.c:47 | for a non-negative duration the minute field is its whole minutes, `t / 60000`; within `[0, MAX_TIME]` it is at most 99 |
| `Config.SecondPart` | src/config.c:48 | for a non-negative duration the second field is below 60 and, with the minute field, gives the whole seconds: `minutes*60 + seconds == t/1000` |
| `Config.TextDigits` | src/config.c:46-53 | six fields; within `[0, MAX_TIME]` each fits two digits, and each minute/second pair adds back up to the whole seconds of its duration |
| `Config.DigitsFit` | src/config.c:46-53 | for a duration in `[0, MAX_TIME]`: minutes <= 99, seconds < 60, `minutes*60 + seconds == t/1000` |
| `Config.CeilingShowsNinetyNineMinutes` | src/config.c:44 | MAX_TIME shows as 99:00, and a seconds press at 99:00 reaches MAX_TIME with the same digits |
| `Config.Durations.constructor` | src/config.c:39-53 | selection starts at 0 and the digit buffer holds the initial durations' minutes and seconds |
| `Config.Durations.ChangeSelection` | src/config.c:133-144 | the selection stays in `[0, 6]` and becomes `StepSelection(old, direction)`; nothing else changes |
| `Config.Durations.UpdateTextDigits` | src/config.c:46-53 | the six digit fields hold minutes and seconds of round, warning and rest |
| `Config.Durations.RaiseField` | src/config.c:164-176 | the `switch (selection / 2)` arm of go_up: duration `field` becomes `Raise(old, incr)` and the other two stay |
| `Config.Durations.GoUp` | src/config.c:155-181 | on "Start" nothing changes and `go` is reported; otherwise only duration `selection/2` changes, to `Raise(old, Increment(selection))`, and the digits are refreshed; the range is preserved |
| `Config.Durations.LowerField` | src/config.c:192-204 | the `switch (selection / 2)` arm of go_down with the negative `incr`: duration `field` becomes `Lower(old, -incr)` and the other two stay |
| `Config.Durations.GoDown` | src/config.c:183-209 | on "Start" nothing changes and `go` is reported; otherwise only duration `selection/2` changes, to `Lower(old, Increment(selection))`, and the digits are refreshed; the range is preserved |
| `Stopwatch.Notify` | src/stopwatch.c:354-369 | a vibration exactly when the period code differs from `last_period`; a double pulse exactly for a new warning |
| `Stopwatch.RecordLap` | src/stopwatch.c:286-318 | writing the lap at the cursor and advancing the cursor mod 5 drops the oldest lap from the ring view and appends the new one |
| `Stopwatch.RingKeepsLastLaps` | src/stopwatch.c:286-318 | after any number of laps the ring, oldest first, is the last five of the old contents followed by the laps; after five or more laps it is exactly the last five |
| `Stopwatch.SevenLaps` | src/stopwatch.c:286-318 | seven laps leave laps 3 to 7 in the ring, oldest first |
| `Stopwatch.Stopwatch.constructor` | src/stopwatch.c:49-76 | the initial globals: stopped, all times 0, `last_period == -1`, cursor 0, no lock, placeholder slots 0 to 4 minutes |
| `Stopwatch.Stopwatch.CurrentPeriod` | src/stopwatch.c:328-342 | the period on the current globals; outside the rest the countdown is positive, and in a warning it is below warning_time |
| `Stopwatch.Stopwatch.Counter` | src/stopwatch.c:344-352 | the countdown on the current globals; with non-negative times it lies in `[0, max(round_time, rest_time)]` |
| `Stopwatch.Stopwatch.Stop` | src/stopwatch.c:173-180 | stopped, with the update timer cancelled |
| `Stopwatch.Stopwatch.Start` | src/stopwatch.c:182-187 | running, both anchors unset, timer armed at 100 ms |
| `Stopwatch.Stopwatch.Toggle` | src/stopwatch.c:189-195 | flips `started`; starting unsets the anchors and arms the timer, stopping cancels it |
| `Stopwatch.Stopwatch.PeriodChanged` | src/stopwatch.c:354-369 | `last_period` becomes the current period's code and the vibration is `Notify(old last_period, period)`, so a second call at the same elapsed time is quiet |
| `Stopwatch.Stopwatch.UpdateStopwatch` | src/stopwatch.c:234-268 | returns the split of the countdown, and stops the stopwatch exactly when the hours exceed 99 |
| `Stopwatch.Stopwatch.AdvanceClock` | src/stopwatch.c:375-387 | the running branch's clock update: the new clock is `Tick(old clock, sample)` |
| `Stopwatch.Stopwatch.HandleTimer` | src/stopwatch.c:371-393 | while running: the clock becomes `Tick(old clock, sample)`, the timer is re-armed with `RearmInterval`, and the period is recorded and notified; while stopped: clock and period unchanged, no vibration |
| `Stopwatch.Stopwatch.Reset` | src/stopwatch.c:197-218 | zeroes elapsed, anchors and lap mark; `last_period = -1`, cursor 0, lock 5, log cleared; keeps running only if it was running and `keep_running`; slot contents untouched |
| `Stopwatch.Stopwatch.ResetStopwatchHandler` | src/stopwatch.c:220-224 | nothing changes while the lock is non-zero; otherwise `Reset(true)` |
| `Stopwatch.Stopwatch.SaveLapTime` | src/stopwatch.c:286-318 | nothing changes while the lock is non-zero; otherwise the lap goes into slot `next_lap_layer` only, the cursor advances mod 5, the lock is 5 and the lap is appended to the log |
| `Stopwatch.Stopwatch.LapTimeHandler` | src/stopwatch.c:226-232 | nothing changes while the lock is non-zero; otherwise the lap `elapsed_time - last_lap_time` is saved and the mark moves to `elapsed_time` |
| `Stopwatch.Stopwatch.AnimationStopped` | src/stopwatch.c:270-272 | the lock and the count of running animations both drop by one |
| `Stopwatch.LapLocksUntilFiveAnimationsStop` | src/stopwatch.c:270-318 | a lap from an idle stopwatch locks a second lap out and frees the lock after exactly five animation completions |
| `ConfigWindow.MakeWatchGo` | src/config.c:150-153 | the stopwatch is reset and not running |
| `ConfigWindow.WindowAppear` | src/config.c:91-93 | the stopwatch is reset and not running, without consulting the lock |
| `ConfigWindow.GoUp` | src/config.c:155-181 | on "Start" the durations and digits stay and the stopwatch is reset stopped; on a field only the selected duration is raised, the digits are refreshed from the new durations and the stopwatch is untouched |
| `ConfigWindow.GoDown` | src/config.c:183-209 | on "Start" the durations and digits stay and the stopwatch is reset stopped; on a field only the selected duration is lowered, the digits are refreshed from the new durations and the stopwatch is untouched |
| `ConfigWindow.ResetDuringLapAnimation` | src/config.c:91-93 | a reset from the configuration window during a lap's animations leaves the lock at -5 once all ten animations stop, and the next lap is ignored |

## Left out

- Window, text-layer, font, bitmap and line drawing: `handle_init`, `handle_deinit`, `draw_line`, `init_config_window`, `init_text_layer`, `update_selections`, `redraw_text_digits`, `config_run` and the click-config providers. These are screen set-up with no logic. `change_selection_down` only calls `change_selection(1)`.
- Animation geometry (`shift_lap_layer`, the property animations and their target rectangles) is not modelled. Only the `busy_animating` counter and a ghost count of animations in flight remain. `AnimationStopped` requires one to be in flight, which is the platform's promise.
- Vibrations are returned as `Vibe` values instead of calling `vibes_*`.
- The update timer is the field `updateTimer`, which holds the delay it was last armed with, or 0 once cancelled. `app_timer_cancel_event` is taken to succeed. The cookie test in `handle_timer` is left out, because only `TIMER_UPDATE` is ever sent.
- `get_pebble_time` becomes the `pebble` parameter of `HandleTimer`.
- `itoa1`, `itoa2`, `format_lap`, `store_lap_time`, `clear_stored_laps`, `show_laps` and `handle_display_lap_times` are defined in files that are not part of this model. The lap slots therefore hold lap durations rather than formatted text, and the full lap log is the sequence `storedLaps`.
- The initial values of `round_time`, `warning_time` and `rest_time` are defined in a header that is not part of this model. They are parameters of the `Config.Durations` constructor.
- C integer widths (`time_t`, `int`) are not modelled: integers are unbounded, so overflow and the `int` truncation of a lap are out of scope.
- Every operation that runs the reduction loop requires `Cycle.Halts` for the value it reduces, because the source does not terminate otherwise. `HandleTimer` requires it of the elapsed time after the tick, and `Reset` and the "Start" path require it of 0.
- `Config.Durations.ChangeSelection` requires a direction within one wrap of the seven entries (`-7..7`). The only caller passes 1.
