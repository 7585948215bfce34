/** The hours/minutes/seconds/tenths split that update_stopwatch draws, and
    the three-digit-hours overflow that stops the stopwatch. */
module Display {

  import opened CArith
  import opened Cycle
  import Config
  import opened DriftClock

  /** The four numbers update_stopwatch formats. */
  datatype ClockFace = ClockFace(hours: int, minutes: int, seconds: int, tenths: int)

  /** update_stopwatch's split of a countdown value, with C division. */
  function Split(t: int): (f: ClockFace)
    ensures t >= 0 ==> 0 <= f.hours && 0 <= f.minutes < 60 && 0 <= f.seconds < 60 && 0 <= f.tenths < 10
  {
    ClockFace(CDiv(t, HOUR_MS), CMod(CDiv(t, 60000), 60), CMod(CDiv(t, 1000), 60), CMod(CDiv(t, 100), 10))
  }

  /** update_stopwatch stops the stopwatch when the hours need three digits,
      which is exactly from 100 hours on. */
  predicate Overflows(t: int): (b: bool)
    ensures b <==> t >= 100 * HOUR_MS
  {
    OverflowThreshold(t);
    Split(t).hours > 99
  }

  /** The four fields, with the hundredths the display drops, add back up to
      the value that was split. */
  lemma SplitRecomposes(t: int)
    requires t >= 0
    ensures Split(t).hours * HOUR_MS + Split(t).minutes * 60000 + Split(t).seconds * 1000
            + Split(t).tenths * 100 + t % 100 == t
  {
    var t1, t2, t3, h := t / 100, t / 1000, t / 60000, t / HOUR_MS;
    DivDiv(t, 100, 10);
    DivDiv(t, 1000, 60);
    DivDiv(t, 60000, 60);
    assert t1 == 10 * t2 + t1 % 10;
    assert t2 == 60 * t3 + t2 % 60;
    assert t3 == 60 * h + t3 % 60;
    assert t == 100 * t1 + t % 100;
  }

  /** The hours field needs three digits exactly from 100 hours on. */
  lemma OverflowThreshold(t: int)
    ensures Split(t).hours > 99 <==> t >= 100 * HOUR_MS
  {
    if t >= 0 {
      assert Split(t).hours == t / HOUR_MS;
      if t >= 100 * HOUR_MS {
        assert t / HOUR_MS >= 100 by {
          ModUnique(t, HOUR_MS, t / HOUR_MS, t % HOUR_MS);
        }
      }
    }
  }

  /** With every duration within the editor's range the countdown stays below
      two hours, so update_stopwatch never takes its overflow stop. */
  lemma CounterNeverOverflows(elapsed: int, roundTime: int, warningTime: int, restTime: int)
    requires elapsed >= 0
    requires 0 <= roundTime <= Config.MAX_TIME && 0 <= restTime <= Config.MAX_TIME
    requires Halts(elapsed, roundTime + restTime)
    ensures Split(CounterAt(elapsed, roundTime, restTime)).hours <= 1
    ensures !Overflows(CounterAt(elapsed, roundTime, restTime))
  {
    CounterBounds(elapsed, roundTime, restTime);
    OverflowThreshold(CounterAt(elapsed, roundTime, restTime));
  }
}
