/** The configuration window's duration editor: a selection cursor over six
    minute/second fields and a "Start" entry, and the round, warning and
    rest durations those fields edit (in milliseconds). */
module Config {

  import opened CArith

  /** The editor's ceiling, kept exactly as written: 99 minutes and 59
      milliseconds, shown as 99:00. */
  const MAX_TIME: int := 99 * 60000 + 59

  /** Number of selectable entries: six digit fields and "Start". */
  const ENTRIES: int := 7

  /** The selection index of the "Start" entry. */
  const START_ENTRY: int := 6

  /** change_selection's arithmetic: one add and at most one wrap by 7. */
  function StepSelection(selection: int, direction: int): (r: int)
    requires -ENTRIES <= selection + direction < 2 * ENTRIES
    ensures 0 <= r < ENTRIES
    ensures (r - (selection + direction)) % ENTRIES == 0
  {
    var s := selection + direction;
    if s < 0 then s + ENTRIES else if s >= ENTRIES then s - ENTRIES else s
  }

  /** The step for a field: even fields hold minutes, odd fields seconds. */
  function Increment(selection: int): (incr: int)
    ensures incr == 60000 || incr == 1000
    ensures selection >= 0 ==> (incr == 60000 <==> selection % 2 == 0)
  {
    if CMod(selection, 2) == 0 then 60000 else 1000
  }

  /** go_up on one duration: add, then cap at MAX_TIME. */
  function Raise(v: int, incr: int): (r: int)
    ensures r <= MAX_TIME && r <= v + incr
    ensures r == v + incr || r == MAX_TIME
    ensures 0 <= v <= MAX_TIME && incr >= 0 ==> v <= r && 0 <= r
  {
    var t := v + incr;
    if t > MAX_TIME then MAX_TIME else t
  }

  /** go_down on one duration: subtract, then floor at 0. */
  function Lower(v: int, incr: int): (r: int)
    ensures r >= 0 && r >= v - incr
    ensures r == v - incr || r == 0
    ensures 0 <= v <= MAX_TIME && incr >= 0 ==> r <= v && r <= MAX_TIME
  {
    var t := v - incr;
    if t < 0 then 0 else t
  }

  /** The minute part update_text_digits shows for a duration: the whole
      minutes in it, at most 99 within the editor's range. */
  function MinutePart(t: int): (m: int)
    ensures t >= 0 ==> m == t / 60000
    ensures 0 <= t <= MAX_TIME ==> 0 <= m <= 99
  {
    if t >= 0 then
      DivDiv(t, 1000, 60);
      CDiv(CDiv(t, 1000), 60)
    else
      CDiv(CDiv(t, 1000), 60)
  }

  /** The second part update_text_digits shows for a duration: the whole
      seconds left over after the whole minutes. */
  function SecondPart(t: int): (s: int)
    ensures t >= 0 ==> 0 <= s < 60 && MinutePart(t) * 60 + s == t / 1000
  {
    CMod(CDiv(t, 1000), 60)
  }

  /** The contents of text_digits: minutes and seconds of round, warning
      and rest, field `2 * i` and `2 * i + 1` for duration `i`. Within the
      editor's range every field fits two digits, and each pair adds back
      up to the whole seconds of its duration. */
  function TextDigits(roundTime: int, warningTime: int, restTime: int): (d: seq<int>)
    ensures |d| == 6
    ensures 0 <= roundTime <= MAX_TIME && 0 <= warningTime <= MAX_TIME && 0 <= restTime <= MAX_TIME ==>
      forall k | 0 <= k < 6 :: 0 <= d[k] <= 99
    ensures roundTime >= 0 ==> d[0] * 60 + d[1] == roundTime / 1000
    ensures warningTime >= 0 ==> d[2] * 60 + d[3] == warningTime / 1000
    ensures restTime >= 0 ==> d[4] * 60 + d[5] == restTime / 1000
  {
    [MinutePart(roundTime), SecondPart(roundTime),
     MinutePart(warningTime), SecondPart(warningTime),
     MinutePart(restTime), SecondPart(restTime)]
  }

  /** Every duration in the editor's range shows as two two-digit numbers
      that add back up to its whole seconds. */
  lemma DigitsFit(t: int)
    requires 0 <= t <= MAX_TIME
    ensures 0 <= MinutePart(t) <= 99 && 0 <= SecondPart(t) < 60
    ensures MinutePart(t) * 60 + SecondPart(t) == t / 1000
  {
    DivDiv(t, 1000, 60);
  }

  /** The ceiling shows as 99:00, and at 99:00 a press on the seconds field
      raises the duration by 59 ms without changing what is shown. */
  lemma CeilingShowsNinetyNineMinutes()
    ensures MinutePart(MAX_TIME) == 99 && SecondPart(MAX_TIME) == 0
    ensures Raise(99 * 60000, Increment(1)) == MAX_TIME
    ensures MinutePart(Raise(99 * 60000, Increment(1))) == MinutePart(99 * 60000)
    ensures SecondPart(Raise(99 * 60000, Increment(1))) == SecondPart(99 * 60000)
  {
  }

  /** The editor's state: config.c's `selection`, the three durations it
      edits and the `text_digits` buffer it fills. */
  class Durations {
    var roundTime: int
    var warningTime: int
    var restTime: int
    var selection: int
    const textDigits: array<int>

    ghost predicate Valid()
      reads this
    {
      0 <= selection < ENTRIES && textDigits.Length == 6
    }

    /** Every duration lies in the range the editor keeps. */
    ghost predicate InRange()
      reads this
    {
      0 <= roundTime <= MAX_TIME && 0 <= warningTime <= MAX_TIME && 0 <= restTime <= MAX_TIME
    }

    /** The editor as the window opens: the selection on the first field and
        the digits filled in from the initial durations. */
    constructor (roundTime: int, warningTime: int, restTime: int)
      ensures Valid() && fresh(textDigits)
      ensures this.roundTime == roundTime && this.warningTime == warningTime && this.restTime == restTime
      ensures selection == 0
      ensures textDigits[..] == TextDigits(roundTime, warningTime, restTime)
    {
      this.roundTime := roundTime;
      this.warningTime := warningTime;
      this.restTime := restTime;
      selection := 0;
      textDigits := new int[6](i => 0);
      new;
      UpdateTextDigits();
    }

    /** change_selection: move the cursor by `direction`, wrapping around
        the seven entries. */
    method ChangeSelection(direction: int)
      requires Valid()
      requires -ENTRIES <= direction <= ENTRIES
      modifies this`selection
      ensures Valid()
      ensures selection == StepSelection(old(selection), direction)
    {
      selection := selection + direction;
      if selection < 0 {
        selection := selection + ENTRIES;
      } else if selection >= ENTRIES {
        selection := selection - ENTRIES;
      }
    }

    /** update_text_digits: refill the six two-digit fields. */
    method UpdateTextDigits()
      requires textDigits.Length == 6
      modifies textDigits
      ensures textDigits[..] == TextDigits(roundTime, warningTime, restTime)
    {
      textDigits[0] := MinutePart(roundTime);
      textDigits[1] := SecondPart(roundTime);
      textDigits[2] := MinutePart(warningTime);
      textDigits[3] := SecondPart(warningTime);
      textDigits[4] := MinutePart(restTime);
      textDigits[5] := SecondPart(restTime);
    }

    /** go_up's `switch (selection / 2)`: add `incr` to duration `field` and
        cap it at MAX_TIME; the other two stay. */
    method RaiseField(field: int, incr: int)
      requires 0 <= field < 3
      modifies this`roundTime, this`warningTime, this`restTime
      ensures roundTime == if field == 0 then Raise(old(roundTime), incr) else old(roundTime)
      ensures warningTime == if field == 1 then Raise(old(warningTime), incr) else old(warningTime)
      ensures restTime == if field == 2 then Raise(old(restTime), incr) else old(restTime)
    {
      if field == 0 {
        roundTime := roundTime + incr;
        roundTime := if roundTime > MAX_TIME then MAX_TIME else roundTime;
      } else if field == 1 {
        warningTime := warningTime + incr;
        warningTime := if warningTime > MAX_TIME then MAX_TIME else warningTime;
      } else if field == 2 {
        restTime := restTime + incr;
        restTime := if restTime > MAX_TIME then MAX_TIME else restTime;
      }
    }

    /** go_up: on "Start" report that the stopwatch is to be launched (`go`)
        and change nothing; on a field raise its duration by a minute or a
        second, capped at MAX_TIME, and redraw the digits. */
    method GoUp() returns (go: bool)
      requires Valid()
      modifies this`roundTime, this`warningTime, this`restTime, textDigits
      ensures Valid()
      ensures go <==> selection == START_ENTRY
      ensures go ==> roundTime == old(roundTime) && warningTime == old(warningTime)
                     && restTime == old(restTime) && textDigits[..] == old(textDigits[..])
      ensures !go ==> roundTime == if selection / 2 == 0 then Raise(old(roundTime), Increment(selection)) else old(roundTime)
      ensures !go ==> warningTime == if selection / 2 == 1 then Raise(old(warningTime), Increment(selection)) else old(warningTime)
      ensures !go ==> restTime == if selection / 2 == 2 then Raise(old(restTime), Increment(selection)) else old(restTime)
      ensures !go ==> textDigits[..] == TextDigits(roundTime, warningTime, restTime)
      ensures old(InRange()) ==>
        InRange() && roundTime >= old(roundTime) && warningTime >= old(warningTime) && restTime >= old(restTime)
    {
      go := selection == START_ENTRY;
      if !go {
        var incr := 1000;
        if selection % 2 == 0 {
          incr := 60000;
        }
        assert incr == Increment(selection);
        RaiseField(selection / 2, incr);
        UpdateTextDigits();
      }
    }

    /** go_down's `switch (selection / 2)`: add the negative `incr` to
        duration `field` and floor it at 0; the other two stay. */
    method LowerField(field: int, incr: int)
      requires 0 <= field < 3
      modifies this`roundTime, this`warningTime, this`restTime
      ensures roundTime == if field == 0 then Lower(old(roundTime), -incr) else old(roundTime)
      ensures warningTime == if field == 1 then Lower(old(warningTime), -incr) else old(warningTime)
      ensures restTime == if field == 2 then Lower(old(restTime), -incr) else old(restTime)
    {
      if field == 0 {
        roundTime := roundTime + incr;
        roundTime := if roundTime < 0 then 0 else roundTime;
      } else if field == 1 {
        warningTime := warningTime + incr;
        warningTime := if warningTime < 0 then 0 else warningTime;
      } else if field == 2 {
        restTime := restTime + incr;
        restTime := if restTime < 0 then 0 else restTime;
      }
    }

    /** go_down: on "Start" report that the stopwatch is to be launched
        (`go`) and change nothing; on a field lower its duration by a minute
        or a second, floored at 0, and redraw the digits. */
    method GoDown() returns (go: bool)
      requires Valid()
      modifies this`roundTime, this`warningTime, this`restTime, textDigits
      ensures Valid()
      ensures go <==> selection == START_ENTRY
      ensures go ==> roundTime == old(roundTime) && warningTime == old(warningTime)
                     && restTime == old(restTime) && textDigits[..] == old(textDigits[..])
      ensures !go ==> roundTime == if selection / 2 == 0 then Lower(old(roundTime), Increment(selection)) else old(roundTime)
      ensures !go ==> warningTime == if selection / 2 == 1 then Lower(old(warningTime), Increment(selection)) else old(warningTime)
      ensures !go ==> restTime == if selection / 2 == 2 then Lower(old(restTime), Increment(selection)) else old(restTime)
      ensures !go ==> textDigits[..] == TextDigits(roundTime, warningTime, restTime)
      ensures old(InRange()) ==>
        InRange() && roundTime <= old(roundTime) && warningTime <= old(warningTime) && restTime <= old(restTime)
    {
      go := selection == START_ENTRY;
      if !go {
        var incr := -1000;
        if selection % 2 == 0 {
          incr := -60000;
        }
        assert incr == -Increment(selection);
        LowerField(selection / 2, incr);
        UpdateTextDigits();
      }
    }
  }
}
