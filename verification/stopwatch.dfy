/** The main window's state engine: the running clock with its drift
    correction, the period notifications, the countdown display, the ring of
    the last five laps and the animation lock that guards lap and reset. */
module Stopwatch {

  import opened Cycle
  import opened DriftClock
  import Display
  import Config

  /** Number of lap slots on the main window. */
  const LAP_TIME_SIZE: int := 5

  /** The vibration period_changed asks for. */
  datatype Vibe = Quiet | DoublePulse | LongPulse

  /** period_changed's choice: a vibration only when the period differs from
      the one last seen, a double pulse for a warning, a long pulse otherwise. */
  function Notify(lastPeriod: int, current: Period): (v: Vibe)
    ensures v != Quiet <==> current.Code() != lastPeriod
    ensures v == DoublePulse <==> current == Warning && lastPeriod != 1
  {
    if current.Code() == lastPeriod then Quiet
    else if current == Warning then DoublePulse
    else LongPulse
  }

  /** The lap slots read from the write cursor on: oldest lap first. */
  function RingView(slots: seq<int>, cursor: int): (r: seq<int>)
    requires 0 <= cursor <= |slots|
    ensures |r| == |slots|
  {
    slots[cursor..] + slots[..cursor]
  }

  /** save_lap_time on the slots alone: overwrite the cursor's slot and move
      the cursor on, wrapping after the last slot. */
  function RecordLap(slots: seq<int>, cursor: int, lap: int): (r: (seq<int>, int))
    requires |slots| == LAP_TIME_SIZE && 0 <= cursor < LAP_TIME_SIZE
    ensures |r.0| == LAP_TIME_SIZE && 0 <= r.1 < LAP_TIME_SIZE
    ensures RingView(r.0, r.1) == RingView(slots, cursor)[1..] + [lap]
  {
    var next := (cursor + 1) % LAP_TIME_SIZE;
    var written := slots[cursor := lap];
    assert RingView(written, next) == RingView(slots, cursor)[1..] + [lap] by {
      if cursor < LAP_TIME_SIZE - 1 {
        assert written[next..] == slots[cursor + 1..];
        assert written[..next] == slots[..cursor] + [lap];
      } else {
        assert written == slots[..cursor] + [lap];
      }
    }
    (written, next)
  }

  /** Several laps recorded one after another. */
  function RecordLaps(slots: seq<int>, cursor: int, laps: seq<int>): (r: (seq<int>, int))
    requires |slots| == LAP_TIME_SIZE && 0 <= cursor < LAP_TIME_SIZE
    ensures |r.0| == LAP_TIME_SIZE && 0 <= r.1 < LAP_TIME_SIZE
    decreases |laps|
  {
    if laps == [] then (slots, cursor)
    else
      var first := RecordLap(slots, cursor, laps[0]);
      RecordLaps(first.0, first.1, laps[1..])
  }

  /** The ring always shows the five most recent values, oldest first: the
      previous contents pushed out by the new laps. Once five or more laps
      are recorded it holds exactly the last five. */
  lemma {:induction false} RingKeepsLastLaps(slots: seq<int>, cursor: int, laps: seq<int>)
    requires |slots| == LAP_TIME_SIZE && 0 <= cursor < LAP_TIME_SIZE
    ensures RingView(RecordLaps(slots, cursor, laps).0, RecordLaps(slots, cursor, laps).1)
            == (RingView(slots, cursor) + laps)[|laps|..]
    ensures |laps| >= LAP_TIME_SIZE ==>
      RingView(RecordLaps(slots, cursor, laps).0, RecordLaps(slots, cursor, laps).1)
      == laps[|laps| - LAP_TIME_SIZE..]
    decreases |laps|
  {
    var view := RingView(slots, cursor);
    if laps != [] {
      var first := RecordLap(slots, cursor, laps[0]);
      RingKeepsLastLaps(first.0, first.1, laps[1..]);
      assert RingView(first.0, first.1) + laps[1..] == (view + laps)[1..] by {
        assert laps == [laps[0]] + laps[1..];
      }
    }
    assert |view + laps| == LAP_TIME_SIZE + |laps|;
  }

  /** Seven laps leave laps three to seven in the ring, oldest first. */
  lemma SevenLaps(slots: seq<int>)
    requires |slots| == LAP_TIME_SIZE
    ensures RingView(RecordLaps(slots, 0, [1, 2, 3, 4, 5, 6, 7]).0, RecordLaps(slots, 0, [1, 2, 3, 4, 5, 6, 7]).1)
            == [3, 4, 5, 6, 7]
  {
    RingKeepsLastLaps(slots, 0, [1, 2, 3, 4, 5, 6, 7]);
  }

  /** The stopwatch's globals. The durations are read from the editor. */
  class Stopwatch {
    /** Owner of round_time, warning_time and rest_time. */
    const config: Config.Durations
    /** The lap slots shown on the main window, as durations in ms. */
    const lapTimes: array<int>
    var elapsedTime: int
    var started: bool
    /** Delay the update timer was last armed with; 0 when it is cancelled. */
    var updateTimer: int
    var startTime: int
    var lastPebbleTime: int
    /** Code of the period last seen; -1 before the first tick. */
    var lastPeriod: int
    var lastLapTime: int
    var nextLapLayer: int
    var busyAnimating: int
    /** The session's lap log kept by store_lap_time and clear_stored_laps. */
    var storedLaps: seq<int>
    /** Animations scheduled whose stopped handler has not run yet. */
    ghost var inFlight: nat

    ghost predicate Valid()
      reads this
    {
      lapTimes.Length == LAP_TIME_SIZE && 0 <= nextLapLayer < LAP_TIME_SIZE && busyAnimating <= inFlight
    }

    function Clock(): Anchors
      reads this
    {
      Anchors(elapsedTime, startTime, lastPebbleTime)
    }

    function FullCycle(): int
      reads this, config
    {
      config.roundTime + config.restTime
    }

    /** get_round_period on the current globals. Outside the rest there is
        time left on the countdown, and in a warning less than warning_time. */
    function CurrentPeriod(): (p: Period)
      reads this, config
      requires Halts(elapsedTime, FullCycle())
      ensures p != Rest ==> Counter() > 0
      ensures p == Warning ==> Counter() < config.warningTime
    {
      PeriodMatchesCounter(elapsedTime, config.roundTime, config.warningTime, config.restTime);
      PeriodAt(elapsedTime, config.roundTime, config.warningTime, config.restTime)
    }

    /** current_counter on the current globals: with non-negative times it
        never goes below 0 nor above the longer of round and rest. */
    function Counter(): (left: int)
      reads this, config
      requires Halts(elapsedTime, FullCycle())
      ensures elapsedTime >= 0 && config.roundTime >= 0 && config.restTime >= 0 ==>
        0 <= left <= if config.roundTime >= config.restTime then config.roundTime else config.restTime
    {
      if elapsedTime >= 0 && config.roundTime >= 0 && config.restTime >= 0 then
        CounterBounds(elapsedTime, config.roundTime, config.restTime);
        CounterAt(elapsedTime, config.roundTime, config.restTime)
      else
        CounterAt(elapsedTime, config.roundTime, config.restTime)
    }

    /** The elapsed time handle_timer hands to the period computation. */
    function TickedElapsed(pebble: int): int
      reads this
    {
      if started then Tick(Clock(), pebble).elapsed else elapsedTime
    }

    /** The lap slots oldest first. */
    ghost function Ring(): seq<int>
      reads this, lapTimes
      requires Valid()
    {
      RingView(lapTimes[..], nextLapLayer)
    }

    /** The state reset_stopwatch leaves behind. */
    twostate predicate WasReset(keepRunning: bool)
      reads this, config
    {
      && elapsedTime == 0 && startTime == 0 && lastLapTime == 0 && lastPebbleTime == 0
      && lastPeriod == -1 && nextLapLayer == 0 && busyAnimating == LAP_TIME_SIZE
      && inFlight == old(inFlight) + LAP_TIME_SIZE && storedLaps == []
      && Halts(0, FullCycle())
      && started == (old(started) && keepRunning && !Display.Overflows(Counter()))
      && updateTimer == (if started then TICK_MS else 0)
    }

    /** The state save_lap_time leaves behind when it accepts `lap`. */
    twostate predicate LapRecorded(lap: int)
      reads this, lapTimes
      requires old(Valid())
    {
      && lapTimes[..] == old(lapTimes[..])[old(nextLapLayer) := lap]
      && nextLapLayer == (old(nextLapLayer) + 1) % LAP_TIME_SIZE
      && busyAnimating == LAP_TIME_SIZE && inFlight == old(inFlight) + LAP_TIME_SIZE
      && storedLaps == old(storedLaps) + [lap]
    }

    /** The globals as the app starts, with the placeholder lap texts
        00:00:00.0 to 00:04:00.0. */
    constructor (config: Config.Durations)
      ensures Valid() && this.config == config && fresh(lapTimes)
      ensures elapsedTime == 0 && !started && updateTimer == 0
      ensures startTime == 0 && lastPebbleTime == 0 && lastPeriod == -1
      ensures lastLapTime == 0 && nextLapLayer == 0 && busyAnimating == 0 && inFlight == 0
      ensures storedLaps == [] && lapTimes[..] == [0, 60000, 120000, 180000, 240000]
    {
      this.config := config;
      lapTimes := new int[LAP_TIME_SIZE](i => i * 60000);
      elapsedTime, started, updateTimer := 0, false, 0;
      startTime, lastPebbleTime, lastPeriod := 0, 0, -1;
      lastLapTime, nextLapLayer, busyAnimating := 0, 0, 0;
      storedLaps, inFlight := [], 0;
      new;
      assert lapTimes[..] == [0, 60000, 120000, 180000, 240000] by {
        assert lapTimes[1] == 60000 && lapTimes[2] == 120000;
        assert lapTimes[3] == 180000 && lapTimes[4] == 240000;
      }
    }

    /** stop_stopwatch: stop running and cancel the update timer. */
    method Stop()
      modifies this`started, this`updateTimer
      ensures !started && updateTimer == 0
    {
      started := false;
      updateTimer := 0;
    }

    /** start_stopwatch: run, forget both clock anchors and arm the update
        timer at 100 ms. */
    method Start()
      modifies this`started, this`lastPebbleTime, this`startTime, this`updateTimer
      ensures started && lastPebbleTime == 0 && startTime == 0 && updateTimer == TICK_MS
    {
      started := true;
      lastPebbleTime := 0;
      startTime := 0;
      updateTimer := TICK_MS;
    }

    /** toggle_stopwatch_handler. */
    method Toggle()
      modifies this`started, this`lastPebbleTime, this`startTime, this`updateTimer
      ensures started == !old(started)
      ensures started ==> lastPebbleTime == 0 && startTime == 0 && updateTimer == TICK_MS
      ensures !started ==> updateTimer == 0 && lastPebbleTime == old(lastPebbleTime) && startTime == old(startTime)
    {
      if started {
        Stop();
      } else {
        Start();
      }
    }

    /** period_changed: classify the current position, ask for a vibration
        when the period differs from the last one seen, and remember it. */
    method PeriodChanged() returns (vibe: Vibe)
      requires Halts(elapsedTime, FullCycle())
      modifies this`lastPeriod
      ensures lastPeriod == CurrentPeriod().Code()
      ensures vibe == Notify(old(lastPeriod), CurrentPeriod())
    {
      var runningTime := SingleRoundRunningTime(elapsedTime, FullCycle());
      var currentPeriod := PeriodOf(runningTime, config.roundTime, config.warningTime).Code();
      vibe := Quiet;
      if currentPeriod != lastPeriod {
        if currentPeriod == 1 {
          vibe := DoublePulse;
        } else if currentPeriod == 2 {
          vibe := LongPulse;
        } else if currentPeriod == 0 {
          vibe := LongPulse;
        }
      }
      lastPeriod := currentPeriod;
    }

    /** update_stopwatch: split the countdown for display, or stop the
        stopwatch when the hours would need three digits (the face is then
        not drawn). */
    method UpdateStopwatch() returns (face: Display.ClockFace)
      requires Halts(elapsedTime, FullCycle())
      modifies this`started, this`updateTimer
      ensures face == Display.Split(Counter())
      ensures started == (old(started) && !Display.Overflows(Counter()))
      ensures updateTimer == if Display.Overflows(Counter()) then 0 else old(updateTimer)
    {
      var runningTime := SingleRoundRunningTime(elapsedTime, FullCycle());
      var effectiveTime := Remaining(runningTime, config.roundTime, config.restTime);
      face := Display.Split(effectiveTime);
      if face.hours > 99 {
        Stop();
      }
    }

    /** The running branch of handle_timer before the re-arm: advance the
        clock by one tick, then correct it against the watch clock's sample
        `pebble`. */
    method AdvanceClock(pebble: int)
      modifies this`elapsedTime, this`startTime, this`lastPebbleTime
      ensures Clock() == Tick(old(Clock()), pebble)
    {
      elapsedTime := elapsedTime + TICK_MS;
      if lastPebbleTime == 0 {
        lastPebbleTime := pebble;
      }
      if pebble > lastPebbleTime {
        if startTime == 0 {
          startTime := pebble - elapsedTime;
        } else {
          elapsedTime := pebble - startTime;
        }
        lastPebbleTime := pebble;
      }
    }

    /** handle_timer, with `pebble` the watch clock's sample: while running,
        advance and correct the clock, re-arm the timer and notify a period
        change; in every case redraw. */
    method HandleTimer(pebble: int) returns (vibe: Vibe)
      requires Valid()
      requires Halts(TickedElapsed(pebble), FullCycle())
      modifies this`elapsedTime, this`startTime, this`lastPebbleTime, this`lastPeriod, this`started, this`updateTimer
      ensures Valid()
      ensures Clock() == if old(started) then Tick(old(Clock()), pebble) else old(Clock())
      ensures lastPeriod == if old(started) then CurrentPeriod().Code() else old(lastPeriod)
      ensures vibe == if old(started) then Notify(old(lastPeriod), CurrentPeriod()) else Quiet
      ensures started == (old(started) && !Display.Overflows(Counter()))
      ensures updateTimer == if started then RearmInterval(elapsedTime)
                             else if Display.Overflows(Counter()) then 0 else old(updateTimer)
    {
      vibe := Quiet;
      if started {
        AdvanceClock(pebble);
        updateTimer := if elapsedTime <= DriftClock.HOUR_MS then TICK_MS else 1000;
        vibe := PeriodChanged();
      }
      var _ := UpdateStopwatch();
    }

    /** reset_stopwatch: stop, zero the clock and the lap mark, forget the
        period, restart when it was running and `keepRunning` holds, redraw,
        schedule the five slide-away animations, move the cursor back to the
        first slot and clear the lap log. The slot contents stay as they
        were. */
    method Reset(keepRunning: bool)
      requires Valid()
      requires Halts(0, FullCycle())
      modifies this
      ensures Valid() && WasReset(keepRunning)
      ensures lapTimes[..] == old(lapTimes[..])
    {
      var isRunning := started;
      Stop();
      elapsedTime := 0;
      startTime := 0;
      lastLapTime := 0;
      lastPebbleTime := 0;
      lastPeriod := -1;
      if isRunning && keepRunning {
        Start();
      }
      var _ := UpdateStopwatch();
      busyAnimating := LAP_TIME_SIZE;
      inFlight := inFlight + LAP_TIME_SIZE;
      nextLapLayer := 0;
      storedLaps := [];
    }

    /** reset_stopwatch_handler: ignored while an animation runs. */
    method ResetStopwatchHandler()
      requires Valid()
      requires Halts(0, FullCycle())
      modifies this
      ensures Valid() && lapTimes[..] == old(lapTimes[..])
      ensures old(busyAnimating) != 0 ==> unchanged(this)
      ensures old(busyAnimating) == 0 ==> WasReset(true)
    {
      if busyAnimating != 0 {
        return;
      }
      Reset(true);
    }

    /** save_lap_time: unless an animation runs, write the lap into the
        cursor's slot, move the cursor on, take the lock for the five
        animations it schedules and append the lap to the log. */
    method SaveLapTime(lapTime: int)
      requires Valid()
      modifies this`busyAnimating, this`inFlight, this`nextLapLayer, this`storedLaps, lapTimes
      ensures Valid()
      ensures old(busyAnimating) != 0 ==> unchanged(this) && unchanged(lapTimes)
      ensures old(busyAnimating) == 0 ==> LapRecorded(lapTime) && Ring() == old(Ring())[1..] + [lapTime]
    {
      if busyAnimating != 0 {
        return;
      }
      busyAnimating := LAP_TIME_SIZE;
      inFlight := inFlight + LAP_TIME_SIZE;
      ghost var recorded := RecordLap(lapTimes[..], nextLapLayer, lapTime);
      lapTimes[nextLapLayer] := lapTime;
      nextLapLayer := (nextLapLayer + 1) % LAP_TIME_SIZE;
      storedLaps := storedLaps + [lapTime];
      assert lapTimes[..] == recorded.0;
    }

    /** lap_time_handler: unless an animation runs, the lap is the time since
        the last mark, and the mark moves to now. */
    method LapTimeHandler()
      requires Valid()
      modifies this`busyAnimating, this`inFlight, this`nextLapLayer, this`storedLaps, this`lastLapTime, lapTimes
      ensures Valid()
      ensures old(busyAnimating) != 0 ==> unchanged(this) && unchanged(lapTimes)
      ensures old(busyAnimating) == 0 ==>
        && LapRecorded(old(elapsedTime) - old(lastLapTime))
        && Ring() == old(Ring())[1..] + [old(elapsedTime) - old(lastLapTime)]
        && lastLapTime == elapsedTime
    {
      if busyAnimating != 0 {
        return;
      }
      var elapsed := elapsedTime;
      var t := elapsed - lastLapTime;
      lastLapTime := elapsed;
      SaveLapTime(t);
    }

    /** animation_stopped: one scheduled animation has finished. */
    method AnimationStopped()
      requires Valid() && inFlight > 0
      modifies this`busyAnimating, this`inFlight
      ensures Valid()
      ensures busyAnimating == old(busyAnimating) - 1 && inFlight == old(inFlight) - 1
    {
      busyAnimating := busyAnimating - 1;
      inFlight := inFlight - 1;
    }
  }

  /** A lap taken with no animation running locks lap and reset until the
      five animations it scheduled have finished, and no longer. */
  method LapLocksUntilFiveAnimationsStop(sw: Stopwatch)
    requires sw.Valid() && sw.busyAnimating == 0 && sw.inFlight == 0
    modifies sw, sw.lapTimes
    ensures sw.Valid() && sw.busyAnimating == 0 && sw.inFlight == 0
    ensures sw.storedLaps == old(sw.storedLaps) + [old(sw.elapsedTime) - old(sw.lastLapTime)]
  {
    sw.LapTimeHandler();
    ghost var laps := sw.storedLaps;
    sw.LapTimeHandler();
    assert sw.storedLaps == laps;
    sw.AnimationStopped();
    sw.AnimationStopped();
    sw.AnimationStopped();
    sw.AnimationStopped();
    assert sw.busyAnimating == 1;
    sw.AnimationStopped();
  }
}
