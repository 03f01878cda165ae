/** The playback/timer controller of the sound player
    (src/components/SoundPlayer.tsx) as a state machine on values.

    `PlayerState` holds the component's state hooks, the timer form's
    `minutes` value, the interval handle with the browser's scheduled
    intervals, and the audio element behind `audioRef`. Every handler is
    a step function (what the handler itself writes) followed by
    `Commit`, the effects React re-runs after the render when their
    dependencies changed. `Inv` is the invariant every handler keeps. */
module Controller {
  import opened Optional
  import opened Catalog
  import TickGuard

  /** Volume in hundredths: the slider's 0..1 range in steps of 0.01 (lines 272-280). */
  type Level = v: int | 0 <= v <= 100

  /** Initial `volume` and `previousVolume` (lines 36, 38). */
  const DefaultVolume: Level := 75

  /** The volume unmuting falls back to when the saved one is 0 (line 203). */
  const UnmuteFallback: Level := 10

  /** How the promise returned by the element's `play()` settles. */
  datatype Outcome = Resolved | Rejected

  /** The audio element: source, loop flag, playback position, output volume, paused flag. */
  datatype Element = Element(src: string, loop: bool, currentTime: nat, volume: Level, paused: bool)

  datatype PlayerState = PlayerState(
    currentSound: Option<Sound>,
    isPlaying: bool,
    isLooping: bool,
    volume: Level,
    isMuted: bool,
    previousVolume: Level,
    timerDuration: int,      // seconds
    timeLeft: int,           // seconds
    minutes: int,            // the timer form's `minutes` value
    timers: TickGuard.Timers,
    audio: Element)

  /** The values the effects at lines 79-89 and 115-139 depend on. */
  datatype Deps = Deps(isPlaying: bool, timeLeft: int, isLooping: bool, volume: Level, isMuted: bool)

  function DepsOf(s: PlayerState): Deps
  {
    Deps(s.isPlaying, s.timeLeft, s.isLooping, s.volume, s.isMuted)
  }

  /** What the element plays at: 0 while muted (line 87). */
  function EffectiveVolume(isMuted: bool, volume: Level): Level
  {
    if isMuted then 0 else volume
  }

  /** The invariant of every state the player reaches. */
  predicate Inv(s: PlayerState)
  {
    // at most one tick source, and one runs exactly while a countdown plays
    && TickGuard.Consistent(s.timers)
    && (TickGuard.Active(s.timers) <==> s.isPlaying && s.timeLeft > 0)
    // countdown bounds; a countdown is pending exactly when time is left
    && 0 <= s.timeLeft <= s.timerDuration
    && (s.timeLeft == 0 <==> s.timerDuration == 0)
    // playing needs a selected sound, loaded into the element
    && (s.isPlaying ==> s.currentSound.Some?)
    && (s.currentSound.Some? ==> s.audio.src == s.currentSound.value.src)
    && (!s.isPlaying ==> s.audio.paused)
    // the element follows the loop flag and the effective volume
    && s.audio.loop == s.isLooping
    && s.audio.volume == EffectiveVolume(s.isMuted, s.volume)
    // mute and volume are coupled; the saved volume is never 0
    && (s.isMuted <==> s.volume == 0)
    && s.previousVolume > 0
  }

  /** The state at mount (lines 33-49, 52-53): nothing selected, volume 75%,
      no countdown, a fresh paused element. */
  function Initial(): (s: PlayerState)
    ensures Inv(s)
  {
    PlayerState(None, false, false, DefaultVolume, false, DefaultVolume, 0, 0, 0,
                TickGuard.NoTimers, Element("", false, 0, DefaultVolume, true))
  }

  // ---------------------------------------------------------------------
  // The audio element

  /** `load()` after a new `src`: the element takes the source, stops and rewinds. */
  function Load(e: Element, src: string): Element
  {
    e.(src := src, currentTime := 0, paused := true)
  }

  /** `play()`: resolved, the element plays; rejected, it stays as it was. */
  function Play(e: Element, outcome: Outcome): Element
  {
    if outcome == Resolved then e.(paused := false) else e
  }

  // ---------------------------------------------------------------------
  // Effects

  /** Lines 79-89: the loop flag and the effective volume are pushed to the element. */
  function SyncElement(before: Deps, s: PlayerState): Element
  {
    var looped := if s.isLooping != before.isLooping then s.audio.(loop := s.isLooping) else s.audio;
    if s.volume != before.volume || s.isMuted != before.isMuted
    then looped.(volume := EffectiveVolume(s.isMuted, s.volume))
    else looped
  }

  predicate CountdownDepsChanged(before: Deps, s: PlayerState)
  {
    s.isPlaying != before.isPlaying || s.timeLeft != before.timeLeft
  }

  /** The commit after a handler, with the interval effect re-run by `TickGuard.Guard`. */
  function Commit(before: Deps, s: PlayerState): (r: PlayerState)
    requires TickGuard.Consistent(s.timers)
    ensures r.(audio := s.audio, timers := s.timers) == s
    ensures TickGuard.Consistent(r.timers)
    ensures CountdownDepsChanged(before, s) ==> (TickGuard.Active(r.timers) <==> s.isPlaying && s.timeLeft > 0)
    ensures !CountdownDepsChanged(before, s) ==> r.timers == s.timers
  {
    s.(audio := SyncElement(before, s),
       timers := if CountdownDepsChanged(before, s) then TickGuard.Guard(s.timers, s.isPlaying, s.timeLeft) else s.timers)
  }

  /** The same commit with the interval effect as the source has it. */
  function CommitAsWritten(before: Deps, s: PlayerState): (r: PlayerState)
    requires TickGuard.Tracked(s.timers)
    ensures r.(audio := s.audio, timers := s.timers) == s
    ensures TickGuard.Tracked(r.timers)
    ensures r.audio == SyncElement(before, s)
    ensures !CountdownDepsChanged(before, s) ==> r.timers == s.timers
  {
    s.(audio := SyncElement(before, s),
       timers := if CountdownDepsChanged(before, s) then TickGuard.RerunAsWritten(s.timers, s.isPlaying, s.timeLeft) else s.timers)
  }

  // ---------------------------------------------------------------------
  // Handler bodies

  /** `handleSoundSelect` (lines 142-157). */
  function SoundSelect(catalog: seq<Sound>, s: PlayerState, id: string, outcome: Outcome): (r: PlayerState)
    ensures Find(catalog, id).None? ==> r == s
    ensures Find(catalog, id).Some? ==>
      && r.currentSound == Find(catalog, id) && r.audio.src == Find(catalog, id).value.src
      && r.audio.currentTime == 0 && (r.audio.paused <==> !s.isPlaying || outcome == Rejected)
      && r.audio.loop == s.audio.loop && r.audio.volume == s.audio.volume
      && r.(currentSound := s.currentSound, audio := s.audio) == s
  {
    match Find(catalog, id)
    case None => s
    case Some(selected) =>
      var loaded := Load(s.audio, selected.src);
      s.(currentSound := Some(selected), audio := if s.isPlaying then Play(loaded, outcome) else loaded)
  }

  /** `playAudio` (lines 91-106), with the promise settled by `outcome`. */
  function PlayAudio(s: PlayerState, outcome: Outcome): (r: PlayerState)
    ensures s.currentSound.None? ==> r == s
    ensures outcome == Rejected ==> r.(audio := s.audio) == s
    ensures s.currentSound.Some? && outcome == Resolved ==>
      && r.isPlaying && !r.audio.paused && r.audio.src == s.currentSound.value.src
      && (s.timeLeft > 0 ==> r.timeLeft == s.timeLeft && r.timerDuration == s.timerDuration)
      && (s.minutes > 0 && s.timeLeft <= 0 ==> r.timeLeft == r.timerDuration == s.minutes * 60)
      && (!(s.minutes > 0 && s.timeLeft <= 0) ==> r.timeLeft == s.timeLeft && r.timerDuration == s.timerDuration)
    ensures r.(isPlaying := s.isPlaying, timerDuration := s.timerDuration, timeLeft := s.timeLeft, audio := s.audio) == s
    ensures r.audio.loop == s.audio.loop && r.audio.volume == s.audio.volume
  {
    match s.currentSound
    case None => s
    case Some(sound) =>
      var e := if s.audio.src != sound.src then Load(s.audio, sound.src) else s.audio;
      if outcome == Rejected then s.(audio := e)
      else
        var arm := s.minutes > 0 && s.timeLeft <= 0;
        s.(audio := Play(e, outcome),
           isPlaying := true,
           timerDuration := if arm then s.minutes * 60 else s.timerDuration,
           timeLeft := if arm then s.minutes * 60 else s.timeLeft)
  }

  /** `pauseAudio` (lines 108-113). Pausing what is already paused changes nothing. */
  function PauseAudio(s: PlayerState): (r: PlayerState)
    ensures !r.isPlaying && r.audio.paused
    ensures r.(isPlaying := s.isPlaying, audio := s.audio) == s && r.audio.(paused := s.audio.paused) == s.audio
    ensures Inv(s) && !s.isPlaying ==> r == s
  {
    s.(isPlaying := false, audio := s.audio.(paused := true))
  }

  /** The body of `handleStop` (lines 175-187). */
  function StopStep(s: PlayerState): PlayerState
    requires TickGuard.Tracked(s.timers)
  {
    var p := PauseAudio(s);
    p.(audio := p.audio.(currentTime := 0), timers := TickGuard.Cancel(p.timers),
       timeLeft := 0, timerDuration := 0, minutes := 0)
  }

  /** The body of `handleVolumeChange` (lines 191-199). */
  function VolumeStep(s: PlayerState, v: Level): PlayerState
  {
    s.(volume := v,
       isMuted := if v > 0 && s.isMuted then false else if v == 0 && !s.isMuted then true else s.isMuted)
  }

  /** The body of `toggleMute` (lines 201-210). */
  function MuteStep(s: PlayerState): PlayerState
  {
    if s.isMuted then s.(volume := if s.previousVolume > 0 then s.previousVolume else UnmuteFallback, isMuted := false)
    else s.(previousVolume := s.volume, volume := 0, isMuted := true)
  }

  /** `parseInt` of the input, `NaN` read as 0 (lines 300, 309, 312-313). */
  function OrZero(parsed: Option<int>): int
  {
    parsed.GetOr(0)
  }

  /** The timer input's `onChange` (lines 299-310). */
  function TimerChangeStep(s: PlayerState, parsed: Option<int>): PlayerState
    requires TickGuard.Tracked(s.timers)
  {
    var p := if s.timers.handle.Some?
             then s.(timers := TickGuard.Cancel(s.timers), isPlaying := false, audio := s.audio.(paused := true))
             else s;
    p.(timeLeft := 0, timerDuration := 0, minutes := OrZero(parsed))
  }

  /** The timer input's `onBlur` (lines 311-321). */
  function TimerBlurStep(s: PlayerState, parsed: Option<int>): PlayerState
  {
    var d := OrZero(parsed) * 60;
    if s.isPlaying && d > 0 then s.(timerDuration := d, timeLeft := d)
    else if d == 0 then s.(timerDuration := 0, timeLeft := 0)
    else s
  }

  /** The element reaching the end of its source, then `handleAudioEnd`
      (lines 56-66). A looping element never ends. */
  function AudioEndStep(s: PlayerState): PlayerState
    requires TickGuard.Tracked(s.timers)
  {
    if s.audio.loop then s
    else
      var e := s.(isPlaying := false, audio := s.audio.(paused := true));
      if s.timers.handle.Some?
      then e.(timeLeft := 0, timerDuration := 0, minutes := 0, timers := TickGuard.Cancel(s.timers))
      else e
  }

  /** One firing of the interval callback (lines 117-128). */
  function TickStep(s: PlayerState): PlayerState
    requires TickGuard.Tracked(s.timers)
  {
    if s.timeLeft <= 1 then
      var p := PauseAudio(s.(timers := TickGuard.Cancel(s.timers)));
      p.(timerDuration := 0, minutes := 0, timeLeft := 0)
    else s.(timeLeft := s.timeLeft - 1)
  }

  // ---------------------------------------------------------------------
  // Handlers: body, then commit

  /** Choosing a sound: an unknown id changes nothing; otherwise the sound
      is selected and loaded, rewound, and kept playing only if it was
      playing and the new `play()` resolves. The countdown is untouched. */
  function Select(catalog: seq<Sound>, s: PlayerState, id: string, outcome: Outcome): (r: PlayerState)
    requires Inv(s)
    ensures Inv(r)
    ensures Find(catalog, id).None? ==> r == s
    ensures Find(catalog, id).Some? ==>
      r == s.(currentSound := Find(catalog, id),
              audio := s.audio.(src := Find(catalog, id).value.src, currentTime := 0,
                                paused := !s.isPlaying || outcome == Rejected))
  {
    Commit(DepsOf(s), SoundSelect(catalog, s, id, outcome))
  }

  /** The play/pause button. With nothing selected it only selects the
      first sound (the deferred `playAudio` at line 165 sees no sound and
      does nothing); playing, it pauses and drops the tick source; paused,
      a rejected `play()` changes nothing, a resolved one plays and arms
      `minutes * 60` seconds only when no countdown is pending. */
  function PlayPause(catalog: seq<Sound>, s: PlayerState, outcome: Outcome): (r: PlayerState)
    requires Inv(s)
    ensures Inv(r)
    ensures s.currentSound.None? && |catalog| > 0 ==>
      r == s.(currentSound := Some(catalog[0]), audio := Load(s.audio, catalog[0].src))
    ensures s.currentSound.None? && |catalog| == 0 ==> r == s
    ensures s.isPlaying ==>
      r == s.(isPlaying := false, audio := s.audio.(paused := true), timers := TickGuard.Cancel(s.timers))
    ensures s.currentSound.Some? && !s.isPlaying && outcome == Rejected ==> r == s
    ensures s.currentSound.Some? && !s.isPlaying && outcome == Resolved ==>
      var arm := s.minutes > 0 && s.timeLeft == 0;
      var left := if arm then s.minutes * 60 else s.timeLeft;
      r == s.(isPlaying := true, audio := s.audio.(paused := false),
              timerDuration := if arm then left else s.timerDuration, timeLeft := left,
              timers := if left > 0 then TickGuard.Start(s.timers) else s.timers)
  {
    if s.currentSound.None? && |catalog| > 0 then Commit(DepsOf(s), SoundSelect(catalog, s, catalog[0].id, outcome))
    else if s.isPlaying then Commit(DepsOf(s), PauseAudio(s))
    else Commit(DepsOf(s), PlayAudio(s, outcome))
  }

  /** Stop is a total reset of playback and countdown from any state:
      paused, rewound, no countdown, timer input 0, no tick source;
      selection, loop and volume stay. */
  function Stop(s: PlayerState): (r: PlayerState)
    requires Inv(s)
    ensures Inv(r)
    ensures r == s.(isPlaying := false, timeLeft := 0, timerDuration := 0, minutes := 0,
                    timers := TickGuard.Timers(None, {}, s.timers.nextId),
                    audio := s.audio.(paused := true, currentTime := 0))
  {
    Commit(DepsOf(s), StopStep(s))
  }

  /** Toggling loop flips the flag and the element's `loop` with it. */
  function ToggleLoop(s: PlayerState): (r: PlayerState)
    requires Inv(s)
    ensures Inv(r)
    ensures r == s.(isLooping := !s.isLooping, audio := s.audio.(loop := !s.isLooping))
  {
    Commit(DepsOf(s), s.(isLooping := !s.isLooping))
  }

  /** Moving the slider stores the volume exactly; mute follows it (on at
      0, off above 0) and the element plays at the new volume. */
  function VolumeChange(s: PlayerState, v: Level): (r: PlayerState)
    requires Inv(s)
    ensures Inv(r)
    ensures r == s.(volume := v, isMuted := v == 0, audio := s.audio.(volume := v))
  {
    Commit(DepsOf(s), VolumeStep(s, v))
  }

  /** Muting saves the volume and sets it to 0; unmuting restores the
      saved volume (never 0 here, so the fallback is not reached). */
  function ToggleMute(s: PlayerState): (r: PlayerState)
    requires Inv(s)
    ensures Inv(r)
    ensures s.isMuted ==>
      r == s.(volume := s.previousVolume, isMuted := false, audio := s.audio.(volume := s.previousVolume))
    ensures !s.isMuted ==>
      r == s.(previousVolume := s.volume, volume := 0, isMuted := true, audio := s.audio.(volume := 0))
  {
    Commit(DepsOf(s), MuteStep(s))
  }

  /** Typing in the timer field: a running countdown is cancelled and
      playback paused; the countdown is cleared and the typed value (0
      for no number) becomes the timer's minutes. */
  function TimerChange(s: PlayerState, parsed: Option<int>): (r: PlayerState)
    requires Inv(s)
    ensures Inv(r)
    ensures TickGuard.Active(s.timers) ==>
      r == s.(isPlaying := false, audio := s.audio.(paused := true), timers := TickGuard.Cancel(s.timers),
              timeLeft := 0, timerDuration := 0, minutes := OrZero(parsed))
    ensures !TickGuard.Active(s.timers) ==>
      r == s.(timeLeft := 0, timerDuration := 0, minutes := OrZero(parsed))
  {
    Commit(DepsOf(s), TimerChangeStep(s, parsed))
  }

  /** Leaving the timer field: while playing, a positive value restarts the
      countdown at that many minutes, keeping the running tick source if
      there is one; a 0 value clears the countdown; otherwise nothing. */
  function TimerBlur(s: PlayerState, parsed: Option<int>): (r: PlayerState)
    requires Inv(s)
    ensures Inv(r)
    ensures s.isPlaying && OrZero(parsed) > 0 ==>
      r == s.(timerDuration := OrZero(parsed) * 60, timeLeft := OrZero(parsed) * 60,
              timers := if TickGuard.Active(s.timers) then s.timers else TickGuard.Start(s.timers))
    ensures OrZero(parsed) == 0 ==>
      r == s.(timerDuration := 0, timeLeft := 0, timers := TickGuard.Cancel(s.timers))
    ensures OrZero(parsed) < 0 || (!s.isPlaying && OrZero(parsed) > 0) ==> r == s
  {
    Commit(DepsOf(s), TimerBlurStep(s, parsed))
  }

  /** End of the source: with loop on nothing happens; otherwise playback
      stops and a running countdown is cleared with its timer input. */
  function AudioEnd(s: PlayerState): (r: PlayerState)
    requires Inv(s)
    ensures Inv(r)
    ensures s.isLooping ==> r == s
    ensures !s.isLooping && TickGuard.Active(s.timers) ==>
      r == s.(isPlaying := false, audio := s.audio.(paused := true), timers := TickGuard.Cancel(s.timers),
              timeLeft := 0, timerDuration := 0, minutes := 0)
    ensures !s.isLooping && !TickGuard.Active(s.timers) ==>
      r == s.(isPlaying := false, audio := s.audio.(paused := true))
  {
    Commit(DepsOf(s), AudioEndStep(s))
  }

  /** One tick of the active source: above one second left it takes exactly
      one second off and changes nothing else; at one second it ends the
      countdown: paused, countdown and timer input 0, tick source gone. */
  function Tick(s: PlayerState): (r: PlayerState)
    requires Inv(s) && TickGuard.Active(s.timers)
    ensures Inv(r)
    ensures s.timeLeft > 1 ==> r == s.(timeLeft := s.timeLeft - 1)
    ensures s.timeLeft <= 1 ==>
      r == s.(isPlaying := false, audio := s.audio.(paused := true), timers := TickGuard.Cancel(s.timers),
              timeLeft := 0, timerDuration := 0, minutes := 0)
  {
    Commit(DepsOf(s), TickStep(s))
  }

  // ---------------------------------------------------------------------
  // Properties across handlers

  /** Muting then unmuting gives back the volume exactly, at the element
      too; only the saved volume now holds the level muted from. */
  lemma MuteRoundTrip(s: PlayerState)
    requires Inv(s) && !s.isMuted
    ensures ToggleMute(ToggleMute(s)) == s.(previousVolume := s.volume)
  {
  }

  /** Unmuting then muting again is back where it started. */
  lemma UnmuteRoundTrip(s: PlayerState)
    requires Inv(s) && s.isMuted
    ensures ToggleMute(ToggleMute(s)) == s
  {
  }

  /** Stopping a stopped player changes nothing. */
  lemma StopIdempotent(s: PlayerState)
    requires Inv(s)
    ensures Stop(Stop(s)) == Stop(s)
  {
  }

  /** Toggling loop twice is no change. */
  lemma ToggleLoopTwice(s: PlayerState)
    requires Inv(s)
    ensures ToggleLoop(ToggleLoop(s)) == s
  {
  }

  /** The slider keeps no history: of two moves only the last one counts. */
  lemma LastVolumeWins(s: PlayerState, v: Level, w: Level)
    requires Inv(s)
    ensures VolumeChange(VolumeChange(s, v), w) == VolumeChange(s, w)
  {
  }

  /** Pausing and resuming a running countdown keeps its time and duration:
      it goes on, under a new tick source, instead of restarting. */
  lemma PauseResumeKeepsCountdown(catalog: seq<Sound>, s: PlayerState)
    requires Inv(s) && s.isPlaying && s.timeLeft > 0
    ensures var r := PlayPause(catalog, PlayPause(catalog, s, Resolved), Resolved);
      && r.isPlaying && r.timeLeft == s.timeLeft && r.timerDuration == s.timerDuration
      && TickGuard.Active(r.timers) && r.timers.handle != s.timers.handle
  {
    var p := PlayPause(catalog, s, Resolved);
    assert p.currentSound.Some? && !p.isPlaying && p.timeLeft == s.timeLeft;
  }

  /** Line 334: the progress bar's percentage, shown while a countdown is
      pending (line 329); it lies in (0, 100]. */
  function ProgressPercent(s: PlayerState): (p: real)
    requires Inv(s) && s.timerDuration > 0
    ensures 0.0 < p <= 100.0
  {
    var ratio := s.timeLeft as real / s.timerDuration as real;
    assert ratio <= 1.0 by {
      assert s.timeLeft as real <= s.timerDuration as real;
    }
    ratio * 100.0
  }
}
