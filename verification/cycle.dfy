/** Where the stopwatch is inside the round+rest cycle, which period that
    position falls in, and how much of the period is left
    (single_round_running_time, get_round_period, current_counter). */
module Cycle {

  import opened CArith

  /** The three periods get_round_period tells apart. */
  datatype Period = Round | Warning | Rest {

    /** The integer the source returns for the period (and stores in last_period). */
    function Code(): (c: int)
      ensures 0 <= c <= 2
      ensures Round? <==> c == 0
      ensures Warning? <==> c == 1
    {
      match this
      case Round => 0
      case Warning => 1
      case Rest => 2
    }
  }

  /** The subtraction loop of single_round_running_time stops when started
      from `elapsed`: a non-positive cycle only works when the loop never runs. */
  predicate Halts(elapsed: int, full: int)
  {
    full > 0 || elapsed <= full
  }

  /** Value of the loop variable after `n` passes of the subtraction loop,
      whether or not the loop test would have let them happen. */
  function AfterPasses(elapsed: int, full: int, n: nat): int
  {
    if n == 0 then elapsed else AfterPasses(elapsed, full, n - 1) - full
  }

  /** Position inside the current cycle as the loop leaves it. The loop test
      is `running_time > full_round`, so a positive exact multiple of the
      cycle stays at `full`, not at 0. */
  function CyclePosition(elapsed: int, full: int): (pos: int)
    requires Halts(elapsed, full)
    ensures elapsed <= full ==> pos == elapsed
    ensures elapsed > full ==> 0 < pos <= full
    decreases if elapsed > full then elapsed - full else 0
  {
    if elapsed <= full then elapsed else CyclePosition(elapsed - full, full)
  }

  /** Number of passes the loop makes: the full cycles left behind. */
  function CompletedCycles(elapsed: int, full: int): nat
    requires Halts(elapsed, full)
    decreases if elapsed > full then elapsed - full else 0
  {
    if elapsed <= full then 0 else 1 + CompletedCycles(elapsed - full, full)
  }

  /** single_round_running_time: subtract the cycle until the value is no
      longer above it. */
  method SingleRoundRunningTime(elapsed: int, full: int) returns (running: int)
    requires Halts(elapsed, full)
    ensures running == CyclePosition(elapsed, full)
  {
    running := elapsed;
    while running > full
      invariant Halts(running, full)
      invariant CyclePosition(running, full) == CyclePosition(elapsed, full)
      decreases running - full
    {
      running := running - full;
    }
  }

  /** The loop leaves `elapsed` split into whole cycles plus the position:
      the position is congruent to the elapsed time modulo the cycle. */
  lemma {:induction false} CycleDecomposition(elapsed: int, full: int)
    requires Halts(elapsed, full)
    ensures CompletedCycles(elapsed, full) * full + CyclePosition(elapsed, full) == elapsed
    decreases if elapsed > full then elapsed - full else 0
  {
    if elapsed > full {
      CycleDecomposition(elapsed - full, full);
      var k := CompletedCycles(elapsed - full, full);
      assert (k + 1) * full == k * full + full;
    }
  }

  /** A closed form of the position for a positive elapsed time and a
      positive cycle: `(elapsed - 1) mod full + 1`, which lies in `[1, full]`. */
  lemma {:induction false} PositionClosedForm(elapsed: int, full: int)
    requires full > 0 && elapsed > 0
    ensures CyclePosition(elapsed, full) == (elapsed - 1) % full + 1
    decreases elapsed
  {
    if elapsed <= full {
      ModUnique(elapsed - 1, full, 0, elapsed - 1);
    } else {
      PositionClosedForm(elapsed - full, full);
      assert CyclePosition(elapsed, full) == CyclePosition(elapsed - full, full);
      ModShift(elapsed - 1 - full, full);
    }
  }

  lemma ModShift(x: int, full: int)
    requires full > 0
    ensures (x + full) % full == x % full
  {
    var q, r := x / full, x % full;
    assert x == full * q + r;
    assert x + full == full * (q + 1) + r;
    ModUnique(x + full, full, q + 1, r);
  }

  /** With a zero (or negative) cycle and a positive start, the loop test
      holds after any number of passes: the source never leaves the loop. */
  lemma {:induction false} ZeroCycleNeverHalts(elapsed: int, full: int, n: nat)
    requires full <= 0 && elapsed > full
    ensures AfterPasses(elapsed, full, n) > full
    ensures AfterPasses(elapsed, full, n) >= elapsed
  {
    if n > 0 {
      ZeroCycleNeverHalts(elapsed, full, n - 1);
    }
  }

  /** get_round_period, once the position is known. */
  function PeriodOf(pos: int, roundTime: int, warningTime: int): (p: Period)
    ensures p == Rest <==> pos >= roundTime
    ensures p == Warning <==> pos < roundTime && warningTime != 0 && pos > roundTime - warningTime
  {
    if pos < roundTime then
      if warningTime != 0 && pos > roundTime - warningTime then Warning else Round
    else
      Rest
  }

  /** current_counter, once the position is known: the countdown left in the
      round, or in the rest. */
  function Remaining(pos: int, roundTime: int, restTime: int): (left: int)
    ensures 0 <= pos <= roundTime + restTime ==> 0 <= left
    ensures 0 <= pos < roundTime ==> left <= roundTime
    ensures roundTime <= pos ==> left <= restTime
    ensures left == 0 ==> pos >= roundTime
  {
    if pos < roundTime then roundTime - pos else restTime - (pos - roundTime)
  }

  /** get_round_period over the configured durations. Within the first
      cycle the period is read off the elapsed time directly. */
  function PeriodAt(elapsed: int, roundTime: int, warningTime: int, restTime: int): (p: Period)
    requires Halts(elapsed, roundTime + restTime)
    ensures elapsed <= roundTime + restTime ==> (p == Rest <==> elapsed >= roundTime)
    ensures elapsed <= roundTime + restTime ==>
      (p == Warning <==> elapsed < roundTime && warningTime != 0 && elapsed > roundTime - warningTime)
  {
    PeriodOf(CyclePosition(elapsed, roundTime + restTime), roundTime, warningTime)
  }

  /** current_counter over the configured durations. Within the first cycle
      it counts down to the end of the round, then to the end of the rest. */
  function CounterAt(elapsed: int, roundTime: int, restTime: int): (left: int)
    requires Halts(elapsed, roundTime + restTime)
    ensures elapsed < roundTime && elapsed <= roundTime + restTime ==> left == roundTime - elapsed
    ensures roundTime <= elapsed <= roundTime + restTime ==> left == roundTime + restTime - elapsed
  {
    Remaining(CyclePosition(elapsed, roundTime + restTime), roundTime, restTime)
  }

  /** After the first instant, period and countdown repeat with the cycle. */
  lemma Periodic(elapsed: int, roundTime: int, warningTime: int, restTime: int)
    requires elapsed > 0 && roundTime + restTime > 0
    ensures PeriodAt(elapsed + roundTime + restTime, roundTime, warningTime, restTime)
            == PeriodAt(elapsed, roundTime, warningTime, restTime)
    ensures CounterAt(elapsed + roundTime + restTime, roundTime, restTime)
            == CounterAt(elapsed, roundTime, restTime)
  {
    var full := roundTime + restTime;
    assert CyclePosition(elapsed + full, full) == CyclePosition(elapsed, full);
  }

  /** The countdown is never negative and never above the longer of the two
      durations. */
  lemma CounterBounds(elapsed: int, roundTime: int, restTime: int)
    requires elapsed >= 0 && roundTime >= 0 && restTime >= 0
    requires Halts(elapsed, roundTime + restTime)
    ensures 0 <= CounterAt(elapsed, roundTime, restTime)
    ensures CounterAt(elapsed, roundTime, restTime) <= if roundTime >= restTime then roundTime else restTime
  {
  }

  /** The period and the countdown agree: a round or warning has time left
      in the round, a warning has less than `warningTime` left, and the
      countdown only reaches 0 in the rest. */
  lemma PeriodMatchesCounter(elapsed: int, roundTime: int, warningTime: int, restTime: int)
    requires Halts(elapsed, roundTime + restTime)
    ensures PeriodAt(elapsed, roundTime, warningTime, restTime) != Rest ==>
      0 < CounterAt(elapsed, roundTime, restTime)
    ensures PeriodAt(elapsed, roundTime, warningTime, restTime) == Warning ==>
      CounterAt(elapsed, roundTime, restTime) < warningTime
    ensures PeriodAt(elapsed, roundTime, warningTime, restTime) == Round && warningTime != 0 ==>
      CounterAt(elapsed, roundTime, restTime) >= warningTime
  {
  }

  /** At every positive whole number of cycles the stopwatch is at the very
      end of a rest with nothing left, not at the start of the next round. */
  lemma {:induction false} CycleBoundaryIsRest(k: int, roundTime: int, warningTime: int, restTime: int)
    requires k >= 1 && roundTime >= 0 && restTime >= 0 && roundTime + restTime > 0
    ensures CyclePosition(k * (roundTime + restTime), roundTime + restTime) == roundTime + restTime
    ensures PeriodAt(k * (roundTime + restTime), roundTime, warningTime, restTime) == Rest
    ensures CounterAt(k * (roundTime + restTime), roundTime, restTime) == 0
  {
    var full := roundTime + restTime;
    if k > 1 {
      CycleBoundaryIsRest(k - 1, roundTime, warningTime, restTime);
      assert k * full - full == (k - 1) * full;
    }
  }

  /** A 30 s round with a 5 s warning and a 10 s rest, at a few instants. */
  lemma ThirtyTenScenario()
    ensures PeriodAt(24999, 30000, 5000, 10000) == Round
    ensures PeriodAt(25000, 30000, 5000, 10000) == Round
    ensures PeriodAt(25001, 30000, 5000, 10000) == Warning
    ensures PeriodAt(30001, 30000, 5000, 10000) == Rest
    ensures CounterAt(30001, 30000, 10000) == 9999
    ensures PeriodAt(40000, 30000, 5000, 10000) == Rest
    ensures CounterAt(40000, 30000, 10000) == 0
    ensures PeriodAt(40001, 30000, 5000, 10000) == Round
    ensures CounterAt(40001, 30000, 10000) == 29999
    ensures CompletedCycles(40001, 40000) == 1
  {
    assert CyclePosition(40001, 40000) == 1;
  }
}
