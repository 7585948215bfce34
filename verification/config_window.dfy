/** The configuration window's buttons that reach into the stopwatch: up and
    down on the "Start" entry launch it through make_watch_go, and the window
    reappearing resets it. */
module ConfigWindow {

  import Config
  import opened Cycle
  import opened Stopwatch

  /** make_watch_go: show the main window (not modelled) and reset the
      stopwatch without letting it run. */
  method MakeWatchGo(sw: Stopwatch)
    requires sw.Valid() && Halts(0, sw.FullCycle())
    modifies sw
    ensures sw.Valid() && sw.WasReset(false) && !sw.started
    ensures sw.lapTimes[..] == old(sw.lapTimes[..])
  {
    sw.Reset(false);
  }

  /** window_appear: coming back to the configuration window resets the
      stopwatch too, whatever animations are still running. */
  method WindowAppear(sw: Stopwatch)
    requires sw.Valid() && Halts(0, sw.FullCycle())
    modifies sw
    ensures sw.Valid() && sw.WasReset(false) && !sw.started
    ensures sw.lapTimes[..] == old(sw.lapTimes[..])
  {
    sw.Reset(false);
  }

  /** go_up as wired to the stopwatch: on "Start" the durations stay and the
      stopwatch is reset; on a field the selected duration is raised and the
      stopwatch is left alone. */
  method GoUp(sw: Stopwatch)
    requires sw.Valid() && sw.config.Valid()
    requires sw.config.selection == Config.START_ENTRY ==> Halts(0, sw.FullCycle())
    modifies sw, sw.config, sw.config.textDigits
    ensures sw.Valid() && sw.config.Valid() && sw.config.selection == old(sw.config.selection)
    ensures sw.lapTimes[..] == old(sw.lapTimes[..])
    ensures old(sw.config.selection) == Config.START_ENTRY ==>
      && sw.WasReset(false)
      && sw.config.roundTime == old(sw.config.roundTime)
      && sw.config.warningTime == old(sw.config.warningTime)
      && sw.config.restTime == old(sw.config.restTime)
    ensures old(sw.config.selection) != Config.START_ENTRY ==>
      && unchanged(sw)
      && sw.config.roundTime == (if sw.config.selection / 2 == 0
           then Config.Raise(old(sw.config.roundTime), Config.Increment(sw.config.selection))
           else old(sw.config.roundTime))
      && sw.config.warningTime == (if sw.config.selection / 2 == 1
           then Config.Raise(old(sw.config.warningTime), Config.Increment(sw.config.selection))
           else old(sw.config.warningTime))
      && sw.config.restTime == (if sw.config.selection / 2 == 2
           then Config.Raise(old(sw.config.restTime), Config.Increment(sw.config.selection))
           else old(sw.config.restTime))
    ensures old(sw.config.selection) == Config.START_ENTRY ==>
      sw.config.textDigits[..] == old(sw.config.textDigits[..])
    ensures old(sw.config.selection) != Config.START_ENTRY ==>
      sw.config.textDigits[..] == Config.TextDigits(sw.config.roundTime, sw.config.warningTime, sw.config.restTime)
  {
    var go := sw.config.GoUp();
    if go {
      MakeWatchGo(sw);
    }
  }

  /** go_down as wired to the stopwatch: on "Start" the durations stay and
      the stopwatch is reset; on a field the selected duration is lowered and
      the stopwatch is left alone. */
  method GoDown(sw: Stopwatch)
    requires sw.Valid() && sw.config.Valid()
    requires sw.config.selection == Config.START_ENTRY ==> Halts(0, sw.FullCycle())
    modifies sw, sw.config, sw.config.textDigits
    ensures sw.Valid() && sw.config.Valid() && sw.config.selection == old(sw.config.selection)
    ensures sw.lapTimes[..] == old(sw.lapTimes[..])
    ensures old(sw.config.selection) == Config.START_ENTRY ==>
      && sw.WasReset(false)
      && sw.config.roundTime == old(sw.config.roundTime)
      && sw.config.warningTime == old(sw.config.warningTime)
      && sw.config.restTime == old(sw.config.restTime)
    ensures old(sw.config.selection) != Config.START_ENTRY ==>
      && unchanged(sw)
      && sw.config.roundTime == (if sw.config.selection / 2 == 0
           then Config.Lower(old(sw.config.roundTime), Config.Increment(sw.config.selection))
           else old(sw.config.roundTime))
      && sw.config.warningTime == (if sw.config.selection / 2 == 1
           then Config.Lower(old(sw.config.warningTime), Config.Increment(sw.config.selection))
           else old(sw.config.warningTime))
      && sw.config.restTime == (if sw.config.selection / 2 == 2
           then Config.Lower(old(sw.config.restTime), Config.Increment(sw.config.selection))
           else old(sw.config.restTime))
    ensures old(sw.config.selection) == Config.START_ENTRY ==>
      sw.config.textDigits[..] == old(sw.config.textDigits[..])
    ensures old(sw.config.selection) != Config.START_ENTRY ==>
      sw.config.textDigits[..] == Config.TextDigits(sw.config.roundTime, sw.config.warningTime, sw.config.restTime)
  {
    var go := sw.config.GoDown();
    if go {
      MakeWatchGo(sw);
    }
  }

  /** A lap followed by a return to the configuration window before its
      animations finish: the unguarded reset sets the lock to 5 while ten
      animations are in flight, so once they have all stopped the lock reads
      -5 and the next lap press is ignored. */
  method ResetDuringLapAnimation(sw: Stopwatch)
    requires sw.Valid() && sw.busyAnimating == 0 && sw.inFlight == 0
    requires Halts(0, sw.FullCycle())
    modifies sw, sw.lapTimes
    ensures sw.Valid() && sw.busyAnimating == -5 && sw.inFlight == 0
    ensures sw.storedLaps == []
  {
    sw.LapTimeHandler();
    WindowAppear(sw);
    assert sw.busyAnimating == 5 && sw.inFlight == 10;
    sw.AnimationStopped(); sw.AnimationStopped(); sw.AnimationStopped(); sw.AnimationStopped(); sw.AnimationStopped();
    assert sw.busyAnimating == 0 && sw.inFlight == 5;
    sw.AnimationStopped(); sw.AnimationStopped(); sw.AnimationStopped(); sw.AnimationStopped(); sw.AnimationStopped();
    sw.LapTimeHandler();
  }
}
