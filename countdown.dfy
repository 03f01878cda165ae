/** The countdown over time: `n` seconds pass with no user action, and
    each second the active tick source, if there is one, fires. Proved for
    the corrected interval effect (the countdown runs to 0 and stops
    playback) and shown for the effect as the source has it (the countdown
    stalls after its first tick). */
module Countdown {
  import opened Optional
  import opened Controller
  import TickGuard

  /** The state after `n` seconds. */
  function Elapse(s: PlayerState, n: nat): (r: PlayerState)
    requires Inv(s)
    ensures Inv(r)
    decreases n
  {
    if n == 0 then s
    else Elapse(if TickGuard.Active(s.timers) then Tick(s) else s, n - 1)
  }

  /** While playing, each second takes one second off the countdown;
      playback stops exactly when it reaches 0, and then the timer input
      is cleared as well. */
  lemma {:induction false} CountdownTrace(s: PlayerState, k: nat)
    requires Inv(s) && s.isPlaying && 0 < s.timeLeft && k <= s.timeLeft
    ensures Elapse(s, k).timeLeft == s.timeLeft - k
    ensures Elapse(s, k).isPlaying <==> k < s.timeLeft
    ensures k == s.timeLeft ==> Elapse(s, k).minutes == 0
    decreases k
  {
    if k > 0 {
      var t := Tick(s);
      assert Elapse(s, k) == Elapse(t, k - 1);
      if s.timeLeft > 1 {
        CountdownTrace(t, k - 1);
      }
    }
  }

  /** A countdown that is playing runs out after exactly `timeLeft`
      seconds, leaving playback paused, no countdown, timer input 0 and
      no tick source. */
  lemma CountdownCompletes(s: PlayerState)
    requires Inv(s) && s.isPlaying && s.timeLeft > 0
    ensures var r := Elapse(s, s.timeLeft);
      !r.isPlaying && r.audio.paused && r.timeLeft == 0 && r.timerDuration == 0 && r.minutes == 0
      && !TickGuard.Active(r.timers)
  {
    CountdownTrace(s, s.timeLeft);
  }

  /** With no tick source nothing happens as time passes. */
  lemma {:induction false} IdleIsFixed(s: PlayerState, n: nat)
    requires Inv(s) && !TickGuard.Active(s.timers)
    ensures Elapse(s, n) == s
  {
    if n > 0 {
      IdleIsFixed(s, n - 1);
    }
  }

  /** Typing 1 in the timer field while playing with no countdown, then
      leaving the field, arms 60 seconds; after 60 seconds playback has
      stopped and no time is left. */
  lemma OneMinuteTimer(s: PlayerState)
    requires Inv(s) && s.isPlaying && s.timeLeft == 0
    ensures var armed := TimerBlur(TimerChange(s, Some(1)), Some(1));
      armed.timeLeft == 60 && !Elapse(armed, 60).isPlaying && Elapse(armed, 60).timeLeft == 0
  {
    var armed := TimerBlur(TimerChange(s, Some(1)), Some(1));
    CountdownTrace(armed, 60);
  }

  /** Arming twice while playing keeps a single tick source, so one tick
      takes exactly one second off. */
  lemma ArmTwiceTickOnce(s: PlayerState, m: nat)
    requires Inv(s) && s.isPlaying && m > 0
    ensures var armed := TimerBlur(TimerBlur(s, Some(m)), Some(m));
      |armed.timers.scheduled| == 1 && Tick(armed).timeLeft == m * 60 - 1
  {
    var armed := TimerBlur(TimerBlur(s, Some(m)), Some(m));
    TickGuard.AtMostOneSource(armed.timers);
  }

  // ---------------------------------------------------------------------
  // The interval effect as the source has it

  /** One tick, with the interval effect's cleanup run on every re-run. */
  function TickAsWritten(s: PlayerState): (r: PlayerState)
    requires TickGuard.Tracked(s.timers)
    ensures TickGuard.Tracked(r.timers)
  {
    CommitAsWritten(DepsOf(s), TickStep(s))
  }

  function ElapseAsWritten(s: PlayerState, n: nat): (r: PlayerState)
    requires TickGuard.Tracked(s.timers)
    ensures TickGuard.Tracked(r.timers)
    decreases n
  {
    if n == 0 then s
    else ElapseAsWritten(if TickGuard.Active(s.timers) then TickAsWritten(s) else s, n - 1)
  }

  lemma {:induction false} StalledStaysPut(s: PlayerState, n: nat)
    requires TickGuard.Tracked(s.timers) && !TickGuard.Active(s.timers)
    ensures ElapseAsWritten(s, n) == s
  {
    if n > 0 {
      StalledStaysPut(s, n - 1);
    }
  }

  /** As written, the first tick of a countdown with at least two seconds
      left also clears the interval, whose handle stays set so no new one
      starts: from then on the countdown is frozen one second down while
      the sound keeps playing. */
  lemma CountdownStallsAsWritten(s: PlayerState, n: nat)
    requires Inv(s) && s.isPlaying && s.timeLeft >= 2 && n >= 1
    ensures var r := ElapseAsWritten(s, n);
      r.isPlaying && r.timeLeft == s.timeLeft - 1 && r.timers.handle.Some? && !TickGuard.Active(r.timers)
  {
    var t := TickAsWritten(s);
    assert ElapseAsWritten(s, n) == ElapseAsWritten(t, n - 1);
    StalledStaysPut(t, n - 1);
  }

  /** The one-minute scenario as written, every commit running the
      source's interval effect: after 60 seconds the sound is still playing
      with 59 seconds shown. */
  lemma OneMinuteTimerAsWritten(s: PlayerState)
    requires Inv(s) && s.isPlaying && s.timeLeft == 0
    ensures var typed := CommitAsWritten(DepsOf(s), TimerChangeStep(s, Some(1)));
      var armed := CommitAsWritten(DepsOf(typed), TimerBlurStep(typed, Some(1)));
      ElapseAsWritten(armed, 60).isPlaying && ElapseAsWritten(armed, 60).timeLeft == 59
  {
    var typed := CommitAsWritten(DepsOf(s), TimerChangeStep(s, Some(1)));
    assert typed == TimerChange(s, Some(1));
    // no interval is held before the countdown starts, so the cleanup has
    // nothing to clear and arming agrees with the corrected effect
    TickGuard.AgreeWithoutHandle(typed.timers, typed.isPlaying, 60);
    var armed := CommitAsWritten(DepsOf(typed), TimerBlurStep(typed, Some(1)));
    assert armed == TimerBlur(typed, Some(1));
    CountdownStallsAsWritten(armed, 60);
  }
}
