/** The sound player component as an object whose handlers update its
    state in place (src/components/SoundPlayer.tsx). The fields are the
    component's state hooks, the timer form's `minutes` value, the
    interval handle (with the browser's scheduled intervals) and the
    fields of the audio element behind `audioRef`. Each handler runs its
    body and then `Rerender`, React's re-run of the effects whose
    dependencies changed; each is proved to move `Model()` exactly as the
    matching function of `Controller` does, and so to keep `Valid()`. */
module Player {
  import opened Optional
  import opened Catalog
  import opened Controller
  import TickGuard
  import Countdown

  class SoundPlayer {
    const sounds: seq<Sound>

    var currentSound: Option<Sound>
    var isPlaying: bool
    var isLooping: bool
    var volume: Level
    var isMuted: bool
    var previousVolume: Level
    var timerDuration: int
    var timeLeft: int
    var minutes: int
    var timers: TickGuard.Timers

    // the audio element
    var audioSrc: string
    var audioLoop: bool
    var audioCurrentTime: nat
    var audioVolume: Level
    var audioPaused: bool

    function Model(): PlayerState
      reads this
    {
      PlayerState(currentSound, isPlaying, isLooping, volume, isMuted, previousVolume,
                  timerDuration, timeLeft, minutes, timers,
                  Element(audioSrc, audioLoop, audioCurrentTime, audioVolume, audioPaused))
    }

    ghost predicate Valid()
      reads this
    {
      Inv(Model())
    }

    /** Mount: the defaults of lines 33-49 and a fresh element at 75% volume. */
    constructor (sounds: seq<Sound>)
      ensures Valid() && this.sounds == sounds && Model() == Initial()
    {
      this.sounds := sounds;
      currentSound := None;
      isPlaying, isLooping := false, false;
      volume, isMuted, previousVolume := DefaultVolume, false, DefaultVolume;
      timerDuration, timeLeft, minutes := 0, 0, 0;
      timers := TickGuard.NoTimers;
      audioSrc, audioLoop, audioCurrentTime, audioVolume, audioPaused := "", false, 0, DefaultVolume, true;
    }

    // -------------------------------------------------------------------
    // The element's own operations

    method LoadAudio(src: string)
      modifies this
      ensures Model() == old(Model()).(audio := Load(old(Model()).audio, src))
    {
      audioSrc, audioCurrentTime, audioPaused := src, 0, true;
    }

    method PlayElement(outcome: Outcome)
      modifies this
      ensures Model() == old(Model()).(audio := Play(old(Model()).audio, outcome))
    {
      if outcome == Resolved {
        audioPaused := false;
      }
    }

    /** The effects at lines 79-89: loop flag and effective volume are
        pushed to the element when they differ from `before`. */
    method SyncElementEffects(before: Deps)
      modifies this
      ensures Model() == old(Model()).(audio := SyncElement(before, old(Model())))
    {
      if isLooping != before.isLooping {
        audioLoop := isLooping;
      }
      if volume != before.volume || isMuted != before.isMuted {
        audioVolume := EffectiveVolume(isMuted, volume);
      }
    }

    /** The interval effect (lines 115-133), re-run only when `isPlaying` or
        `timeLeft` differ from `before`; its cleanup is kept for unmount. */
    method IntervalEffect(before: Deps)
      requires TickGuard.Consistent(timers)
      modifies this
      ensures Model() == old(Model()).(timers :=
        if CountdownDepsChanged(before, old(Model())) then TickGuard.Guard(old(timers), isPlaying, timeLeft)
        else old(timers))
    {
      if isPlaying != before.isPlaying || timeLeft != before.timeLeft {
        if isPlaying && timeLeft > 0 && timers.handle.None? {
          timers := TickGuard.Start(timers);
        } else if (!isPlaying || timeLeft <= 0) && timers.handle.Some? {
          timers := TickGuard.Cancel(timers);
        }
      }
    }

    /** The commit after a handler: every effect whose dependencies changed runs. */
    method Rerender(before: Deps)
      requires TickGuard.Consistent(timers)
      modifies this
      ensures Model() == Commit(before, old(Model()))
    {
      SyncElementEffects(before);
      IntervalEffect(before);
    }

    // -------------------------------------------------------------------
    // Handler bodies

    /** `handleSoundSelect` (lines 142-157). */
    method SoundSelect(id: string, outcome: Outcome)
      modifies this
      ensures Model() == Controller.SoundSelect(sounds, old(Model()), id, outcome)
    {
      var selected := Find(sounds, id);
      if selected.Some? {
        currentSound := selected;
        LoadAudio(selected.value.src);
        if isPlaying {
          PlayElement(outcome);
        }
      }
    }

    /** `playAudio` (lines 91-106). */
    method PlayAudio(outcome: Outcome)
      modifies this
      ensures Model() == Controller.PlayAudio(old(Model()), outcome)
    {
      if currentSound.Some? {
        var sound := currentSound.value;
        if audioSrc != sound.src {
          LoadAudio(sound.src);
        }
        PlayElement(outcome);
        if outcome == Resolved {
          isPlaying := true;
          if minutes > 0 && timeLeft <= 0 {
            var duration := minutes * 60;
            timerDuration := duration;
            timeLeft := duration;
          }
        }
      }
    }

    /** `pauseAudio` (lines 108-113). */
    method PauseAudio()
      modifies this
      ensures Model() == Controller.PauseAudio(old(Model()))
    {
      audioPaused := true;
      isPlaying := false;
    }

    // -------------------------------------------------------------------
    // Handlers

    method Select(id: string, outcome: Outcome)
      requires Valid()
      modifies this
      ensures Valid()
      ensures Model() == Controller.Select(sounds, old(Model()), id, outcome)
    {
      var before := DepsOf(Model());
      SoundSelect(id, outcome);
      Rerender(before);
    }

    method PlayPause(outcome: Outcome)
      requires Valid()
      modifies this
      ensures Valid()
      ensures Model() == Controller.PlayPause(sounds, old(Model()), outcome)
    {
      var before := DepsOf(Model());
      if currentSound.None? && |sounds| > 0 {
        SoundSelect(sounds[0].id, outcome);
      } else if isPlaying {
        PauseAudio();
      } else {
        PlayAudio(outcome);
      }
      Rerender(before);
    }

    method Stop()
      requires Valid()
      modifies this
      ensures Valid()
      ensures Model() == Controller.Stop(old(Model()))
    {
      var before := DepsOf(Model());
      PauseAudio();
      audioCurrentTime := 0;
      if timers.handle.Some? {
        timers := TickGuard.Cancel(timers);
      }
      timeLeft, timerDuration, minutes := 0, 0, 0;
      Rerender(before);
    }

    method ToggleLoop()
      requires Valid()
      modifies this
      ensures Valid()
      ensures Model() == Controller.ToggleLoop(old(Model()))
    {
      var before := DepsOf(Model());
      isLooping := !isLooping;
      Rerender(before);
    }

    method VolumeChange(v: Level)
      requires Valid()
      modifies this
      ensures Valid()
      ensures Model() == Controller.VolumeChange(old(Model()), v)
    {
      var before := DepsOf(Model());
      volume := v;
      if v > 0 && isMuted {
        isMuted := false;
      } else if v == 0 && !isMuted {
        isMuted := true;
      }
      Rerender(before);
    }

    method ToggleMute()
      requires Valid()
      modifies this
      ensures Valid()
      ensures Model() == Controller.ToggleMute(old(Model()))
    {
      var before := DepsOf(Model());
      if isMuted {
        var restored: int := if previousVolume > 0 then previousVolume else UnmuteFallback;
        volume := restored;
        isMuted := false;
      } else {
        previousVolume := volume;
        volume := 0;
        isMuted := true;
      }
      Rerender(before);
    }

    /** The timer input's `onChange`; `parsed` is `parseInt` of the text, `None` for `NaN`. */
    method TimerChange(parsed: Option<int>)
      requires Valid()
      modifies this
      ensures Valid()
      ensures Model() == Controller.TimerChange(old(Model()), parsed)
    {
      var before := DepsOf(Model());
      if timers.handle.Some? {
        timers := TickGuard.Cancel(timers);
        isPlaying := false;
        audioPaused := true;
      }
      timeLeft, timerDuration := 0, 0;
      minutes := OrZero(parsed);
      Rerender(before);
    }

    /** The timer input's `onBlur`. */
    method TimerBlur(parsed: Option<int>)
      requires Valid()
      modifies this
      ensures Valid()
      ensures Model() == Controller.TimerBlur(old(Model()), parsed)
    {
      var before := DepsOf(Model());
      var duration := OrZero(parsed) * 60;
      if isPlaying && duration > 0 {
        timerDuration, timeLeft := duration, duration;
      } else if duration == 0 {
        timerDuration, timeLeft := 0, 0;
      }
      Rerender(before);
    }

    /** The element reaches the end of its source and fires `ended`. */
    method AudioEnd()
      requires Valid()
      modifies this
      ensures Valid()
      ensures Model() == Controller.AudioEnd(old(Model()))
    {
      var before := DepsOf(Model());
      if !audioLoop {
        audioPaused := true;
        isPlaying := false;
        if timers.handle.Some? {
          timeLeft, timerDuration, minutes := 0, 0, 0;
          timers := TickGuard.Cancel(timers);
        }
      }
      Rerender(before);
    }

    /** The interval fires. */
    method Tick()
      requires Valid() && TickGuard.Active(timers)
      modifies this
      ensures Valid()
      ensures Model() == Controller.Tick(old(Model()))
    {
      var before := DepsOf(Model());
      if timeLeft <= 1 {
        timers := TickGuard.Cancel(timers);
        PauseAudio();
        timerDuration, minutes, timeLeft := 0, 0, 0;
      } else {
        timeLeft := timeLeft - 1;
      }
      Rerender(before);
    }

    /** `seconds` seconds pass: each second the active interval, if any, fires. */
    method Wait(seconds: nat)
      requires Valid()
      modifies this
      ensures Valid()
      ensures Model() == Countdown.Elapse(old(Model()), seconds)
    {
      var i := 0;
      while i < seconds
        invariant i <= seconds
        invariant Valid()
        invariant Countdown.Elapse(Model(), seconds - i) == Countdown.Elapse(old(Model()), seconds)
      {
        if TickGuard.Active(timers) {
          Tick();
        }
        i := i + 1;
      }
    }
  }

  /** With a catalog of two sounds and nothing selected, the first press of
      play/pause selects the first sound and does not start playback. */
  method FirstPressSelectsOnly() returns (selected: Option<Sound>, playing: bool)
    ensures selected == Some(Sound("a", "A", "a.mp3")) && !playing
  {
    var a, b := Sound("a", "A", "a.mp3"), Sound("b", "B", "b.mp3");
    var player := new SoundPlayer([a, b]);
    player.PlayPause(Resolved);
    selected, playing := player.currentSound, player.isPlaying;
  }

  /** Select a sound, play it, type 1 in the timer field and leave it:
      after 60 seconds playback has stopped and no time is left. */
  method OneMinuteTimerStops() returns (playing: bool, left: int)
    ensures !playing && left == 0
  {
    var a := Sound("a", "A", "a.mp3");
    var player := new SoundPlayer([a]);
    player.Select("a", Resolved);
    player.PlayPause(Resolved);
    player.TimerChange(Some(1));
    player.TimerBlur(Some(1));
    Countdown.CountdownTrace(player.Model(), 60);
    player.Wait(60);
    playing, left := player.isPlaying, player.timeLeft;
  }
}
