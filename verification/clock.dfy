/** The drift correction that handle_timer applies on every tick while the
    stopwatch runs: an optimistic 100 ms advance, re-anchored against the
    coarse watch clock whenever that clock has moved on. */
module DriftClock {

  /** Nominal period of the update timer. */
  const TICK_MS: int := 100

  /** Once the elapsed time is past an hour the timer is re-armed at 1 s. */
  const HOUR_MS: int := 3600000

  /** The three globals the correction works on. `startTime` and
      `lastPebbleTime` use 0 for "not yet known". */
  datatype Anchors = Anchors(elapsed: int, startTime: int, lastPebbleTime: int)

  /** One running tick of handle_timer, given the watch clock's sample. */
  function Tick(a: Anchors, pebble: int): (b: Anchors)
    ensures b.lastPebbleTime == if a.lastPebbleTime == 0 || pebble > a.lastPebbleTime then pebble else a.lastPebbleTime
    ensures b.startTime == a.startTime || (a.startTime == 0 && b.startTime + b.elapsed == pebble)
  {
    var elapsed := a.elapsed + TICK_MS;
    var last := if a.lastPebbleTime == 0 then pebble else a.lastPebbleTime;
    if pebble > last then
      if a.startTime == 0 then Anchors(elapsed, pebble - elapsed, pebble)
      else Anchors(pebble - a.startTime, a.startTime, pebble)
    else
      Anchors(elapsed, a.startTime, last)
  }

  /** The delay handle_timer re-arms the update timer with. */
  function RearmInterval(elapsed: int): (ms: int)
    ensures ms == TICK_MS || ms == 1000
    ensures ms == TICK_MS <==> elapsed <= HOUR_MS
  {
    if elapsed <= HOUR_MS then TICK_MS else 1000
  }

  /** The watch clock has moved past the last sample the correction saw. */
  predicate Advanced(a: Anchors, pebble: int)
  {
    a.lastPebbleTime != 0 && pebble > a.lastPebbleTime
  }

  /** The elapsed time moves by exactly one tick, unless the watch clock has
      advanced and an anchor is known, in which case it is snapped onto it. */
  lemma TickElapsed(a: Anchors, pebble: int)
    ensures Advanced(a, pebble) && a.startTime != 0 ==>
      Tick(a, pebble).elapsed == pebble - a.startTime && Tick(a, pebble).startTime == a.startTime
    ensures !(Advanced(a, pebble) && a.startTime != 0) ==>
      Tick(a, pebble).elapsed == a.elapsed + TICK_MS
  {
  }

  /** The first advance of the watch clock does not touch the elapsed time:
      it only records the offset between the two clocks. */
  lemma FirstAdvanceAnchors(a: Anchors, pebble: int)
    requires Advanced(a, pebble) && a.startTime == 0
    ensures Tick(a, pebble).elapsed == a.elapsed + TICK_MS
    ensures Tick(a, pebble).startTime == pebble - (a.elapsed + TICK_MS)
    ensures Tick(a, pebble).lastPebbleTime == pebble
  {
  }

  /** Once it is known, the last sample only ever goes up. */
  lemma LastSampleOnlyRaised(a: Anchors, pebble: int)
    requires a.lastPebbleTime != 0
    ensures Tick(a, pebble).lastPebbleTime >= a.lastPebbleTime
    ensures Tick(a, pebble).lastPebbleTime == a.lastPebbleTime || Advanced(a, pebble)
  {
  }

  /** The correction can move the elapsed time backwards: here the timer ran
      fast and a later sample pulls it back by 500 ms. */
  lemma CorrectionCanRegress()
    ensures Tick(Anchors(5000, 1000, 5000), 5500).elapsed == 4500
  {
  }

  /** A sequence of running ticks, one watch-clock sample per tick. */
  function Run(a: Anchors, samples: seq<int>): Anchors
    decreases |samples|
  {
    if samples == [] then a else Run(Tick(a, samples[0]), samples[1..])
  }

  /** How far the elapsed time is ahead of the last sample, measured from the
      anchor. */
  function Drift(a: Anchors): int
  {
    a.elapsed - (a.lastPebbleTime - a.startTime)
  }

  /** An anchor and a positive last sample are known and the elapsed time is
      not behind the last sample. */
  predicate Anchored(a: Anchors)
  {
    a.startTime != 0 && a.lastPebbleTime > 0 && Drift(a) >= 0
  }

  /** A tick that sees the watch clock advance leaves no drift at all. */
  lemma SnapOnAdvance(a: Anchors, pebble: int)
    requires Anchored(a) && Advanced(a, pebble)
    ensures Anchored(Tick(a, pebble)) && Drift(Tick(a, pebble)) == 0
    ensures Tick(a, pebble).elapsed == pebble - a.startTime
  {
  }

  /** Over any run of samples an anchored clock keeps its anchor,
      keeps the largest sample seen, and drifts ahead of the watch clock by
      at most one tick per sample. */
  lemma {:induction false} RunDriftBounded(a: Anchors, samples: seq<int>)
    requires Anchored(a)
    ensures Anchored(Run(a, samples))
    ensures Run(a, samples).startTime == a.startTime
    ensures Run(a, samples).lastPebbleTime >= a.lastPebbleTime
    ensures forall i :: 0 <= i < |samples| ==> Run(a, samples).lastPebbleTime >= samples[i]
    ensures Drift(Run(a, samples)) <= Drift(a) + TICK_MS * |samples|
    decreases |samples|
  {
    if samples != [] {
      var b := Tick(a, samples[0]);
      assert Anchored(b) && Drift(b) <= Drift(a) + TICK_MS;
      RunDriftBounded(b, samples[1..]);
      assert Run(a, samples) == Run(b, samples[1..]);
      forall i | 0 <= i < |samples|
        ensures Run(a, samples).lastPebbleTime >= samples[i]
      {
        if i > 0 {
          assert samples[i] == samples[1..][i - 1];
        }
      }
    }
  }

  /** Samples of 0, 0, 1000, 1000 and 2000 ms from a fresh start: the third
      sample is only recorded, the fifth sets the anchor, and the elapsed time
      is left at the 500 ms the ticks counted, not at the 2000 ms of the watch
      clock. */
  lemma FreshStartSamples()
    ensures Run(Anchors(0, 0, 0), [0, 0, 1000, 1000, 2000]) == Anchors(500, 1500, 2000)
  {
    var s := [0, 0, 1000, 1000, 2000];
    assert s[1..] == [0, 1000, 1000, 2000];
    assert s[1..][1..] == [1000, 1000, 2000];
    assert s[1..][1..][1..] == [1000, 2000];
    assert s[1..][1..][1..][1..] == [2000];
    assert Tick(Anchors(0, 0, 0), 0) == Anchors(100, 0, 0);
    assert Tick(Anchors(100, 0, 0), 0) == Anchors(200, 0, 0);
    assert Tick(Anchors(200, 0, 0), 1000) == Anchors(300, 0, 1000);
    assert Tick(Anchors(300, 0, 1000), 1000) == Anchors(400, 0, 1000);
    assert Tick(Anchors(400, 0, 1000), 2000) == Anchors(500, 1500, 2000);
  }
}
