# Sound player controller

A Dafny model of the playback and sleep-timer controller of the white-noise
player component (`src/components/SoundPlayer.tsx`). The component keeps:
- the selected sound and the flags `isPlaying` and `isLooping`;
- `volume`, `isMuted` and `previousVolume`;
- the countdown pair `timerDuration`/`timeLeft`;
- the timer form's `minutes` value;
- the interval handle in `timerIntervalRef`;
- an audio element.

Its handlers change that state, and after each handler React re-runs the
effects whose dependencies changed. The model treats one handler followed
by the commit of its state updates as one step.

The interval effect at lines 115-139 has a bug (see Findings): its cleanup
clears the interval on every re-run but leaves the handle set. The
handlers in `Controller` and `Player`, and `Countdown.Elapse`, run the
corrected effect, `TickGuard.Guard`, whose cleanup runs only at unmount.
Rows marked "(corrected effect)" state facts about that corrected
controller. What the source itself does is stated by the `AsWritten`
members.

Modules:
- `Optional`: the `Option` type.
- `Catalog`: the `Sound {id, name, src}` shape and `sounds.find` by id.
- `TimeFormat`: `formatTime` as a pure function, a reader for the
  `MM:SS` text, and the round trip between them.
- `TickGuard`: the interval handle together with the set of intervals the
  browser will still fire. It holds the effect of lines 115-139, both as
  the source has it and with its cleanup kept for unmount.
- `Controller`: the player state as a value, with the invariant `Inv`
  that every reachable state keeps.
  - One function per handler: the handler's body, then the commit (the
    loop and volume effects at lines 79-89 and the corrected interval
    effect). `CommitAsWritten` is the commit with the source's effect.
  - The closed form of each handler's result.
  - Lemmas that relate handlers.
- `Countdown`: seconds passing with no user action. The countdown runs
  to 0 and stops playback with the corrected interval effect. With the
  effect as written it stalls (see Findings).
- `Player`: the component as a class.
  - Its fields are the state hooks, the form value, the timer table and
    the audio element's fields.
  - Each handler is a method that updates the fields in place, then runs
    `Rerender`.
  - Each method is proved to move `Model()` exactly as the matching
    `Controller` function does, and so to keep `Valid()`.

Modelling choices:
- Volume is in integer hundredths (`Level`, 0..100), the slider's step
  at line 276. The defaults 0.75 and 0.1 become 75 and 10.
- React batches state updates, so every handler reads the state as it was
  before the handler ran. The model's handler bodies are written that way.
- The outcome of the element's `play()` promise is a parameter
  (`Resolved` or `Rejected`). `parseInt` of the timer input is a parameter
  `Option<int>`, with `None` for `NaN`.
- `load()` sets the source, rewinds and pauses the element. The `ended`
  event pauses the element and then runs `handleAudioEnd`. A looping
  element never ends.

Where the code differs from what a reader of the component might expect,
the model follows the code:
- With nothing selected, play/pause only selects the first sound. The
  deferred `playAudio` at line 165 is a closure in which `currentSound`
  is still `null`, so it does nothing (`Player.FirstPressSelectsOnly`).
- Muting sets `volume` itself to 0 (line 207), so `isMuted` holds exactly
  when `volume` is 0.
- The fallback to 0.1 at line 203 is never reached. `previousVolume`
  starts at 0.75 and is only ever saved from a volume that is not muted,
  which is positive. `Inv` states `previousVolume > 0`.
- The schema bounds `minutes` to 0..240 (lines 24-26), but the form is
  never submitted, so that check never runs. `field.onChange` stores any
  integer `parseInt` yields. The model's `minutes` is therefore an
  unbounded `int` (see "Left out" for the limits of JavaScript numbers).
  A negative value arms nothing (lines 99 and 314-317).

## Model

| member | source | states |
|---|---|---|
| Catalog.FirstIndex | src/components/SoundPlayer.tsx:144 | the index found holds the id and no earlier entry does; none is found only when no entry has the id |
| Catalog.Find | src/components/SoundPlayer.tsx:144 | a found sound is in the catalog with that id; nothing is found exactly when no entry has the id; a first entry with the id is the one found |
| TimeFormat.Decimal | src/components/SoundPlayer.tsx:215 | `toString` of a natural number is digits only, a single digit exactly below 10, and starts with 0 only for 0 |
| TimeFormat.PadStart | src/components/SoundPlayer.tsx:215 | `padStart` reaches the width, keeps the text as its suffix and fills in front |
| TimeFormat.FormatTime | src/components/SoundPlayer.tsx:212-216 | the text is at least 5 characters, with a colon three from the end and digits everywhere else, so at least two minute digits and exactly two second digits |
| TimeFormat.FormatTimeRoundTrip | src/components/SoundPlayer.tsx:212-216 | reading the text back (minutes field, colon, two-digit seconds below 60) gives minutes*60 + seconds, which is the number formatted |
| TickGuard.AtMostOneSource | src/components/SoundPlayer.tsx:115-133 | while only the held interval may be scheduled, at most one interval exists, and an active one is the held one |
| TickGuard.Cancel | src/components/SoundPlayer.tsx:130-132 | clearing the held interval and nulling the ref leaves no tick source and no handle |
| TickGuard.Start | src/components/SoundPlayer.tsx:117-129 | `setInterval` stored in the ref: a fresh id, scheduled and held; started with no handle held it is the single tick source |
| TickGuard.Body | src/components/SoundPlayer.tsx:116-133 | the effect body: never starts a second interval while a handle is held, holds a handle whenever playing with time left, and drops the handle and the tick source otherwise |
| TickGuard.Cleanup | src/components/SoundPlayer.tsx:134-138 | the cleanup leaves no tick source but keeps the handle, which is the cause of the stall |
| TickGuard.Guard | src/components/SoundPlayer.tsx:115-133 | the effect re-run, with its cleanup only at unmount: a tick source is active exactly when playing with time left; a running one is kept, not duplicated; a new one gets a fresh id; otherwise the handle is dropped |
| TickGuard.RerunAsWritten | src/components/SoundPlayer.tsx:115-139 | the re-run as written, cleanup first: no interval leaks, but a held interval is cleared with its handle still set, so playing with time left ends with no tick source |
| TickGuard.AgreeWithoutHandle | src/components/SoundPlayer.tsx:134-138 | the cleanup only matters once a handle is held: before that both re-runs agree |
| Controller.Initial | src/components/SoundPlayer.tsx:33-53 | the state at mount satisfies the invariant |
| Controller.PauseAudio | src/components/SoundPlayer.tsx:108-113 | pausing leaves the element paused and not playing, changes nothing else, and pausing a paused player changes nothing |
| Controller.Commit | src/components/SoundPlayer.tsx:79-133 | (corrected effect) the commit changes only the element and the timers; the table stays consistent, and after a change of `isPlaying` or `timeLeft` a tick source runs exactly when playing with time left |
| Controller.CommitAsWritten | src/components/SoundPlayer.tsx:79-139 | the commit with the source's effect changes only the element and the timers, syncs the element, keeps every interval tracked, and touches the timers only when `isPlaying` or `timeLeft` changed |
| Controller.SoundSelect | src/components/SoundPlayer.tsx:142-157 | the handler body: an unknown id changes nothing; a known one is selected, loaded and rewound, the element playing only if it was playing and `play()` resolved; nothing else changes |
| Controller.PlayAudio | src/components/SoundPlayer.tsx:91-106 | `playAudio`: with no sound nothing changes; a rejected `play()` changes only the element; a resolved one plays the selected source, keeps a pending countdown and arms `minutes*60` when `minutes > 0` and none is pending, leaving the countdown as it was otherwise; the element's loop and volume and every other field stay |
| Controller.Select | src/components/SoundPlayer.tsx:142-157 | an unknown id changes nothing; a known one becomes the selection, is loaded and rewound, and keeps playing only if it was playing and `play()` resolves; the countdown is untouched; the invariant is kept |
| Controller.PlayPause | src/components/SoundPlayer.tsx:159-173 | with nothing selected it only selects the first sound; playing, it pauses and drops the tick source; paused, a rejected `play()` changes nothing and a resolved one plays and arms `minutes*60` only when no countdown is pending (lines 97-103); the invariant is kept |
| Controller.Stop | src/components/SoundPlayer.tsx:175-187 | total reset from any state: not playing, paused, rewound, no countdown, minutes 0, no tick source; selection, loop and volume unchanged |
| Controller.ToggleLoop | src/components/SoundPlayer.tsx:189 | the loop flag flips and the element's `loop` follows it (lines 79-83); nothing else changes |
| Controller.VolumeChange | src/components/SoundPlayer.tsx:191-199 | the volume is stored exactly, mute is on exactly at 0, and the element plays at the new volume (lines 85-89) |
| Controller.ToggleMute | src/components/SoundPlayer.tsx:201-210 | muting saves the volume and sets volume and element to 0; unmuting restores the saved volume |
| Controller.TimerChange | src/components/SoundPlayer.tsx:299-310 | a running countdown is cancelled together with playback; the countdown is cleared and `parseInt`-or-0 of the input becomes the minutes |
| Controller.TimerBlur | src/components/SoundPlayer.tsx:311-321 | (corrected effect) while playing, a positive value restarts the countdown at that many minutes under a single tick source; 0 clears it; otherwise nothing changes |
| Controller.AudioEnd | src/components/SoundPlayer.tsx:56-66 | with loop on nothing happens; otherwise playback stops and a running countdown is cleared with its minutes and tick source |
| Controller.Tick | src/components/SoundPlayer.tsx:117-128 | (corrected effect) above one second left it takes exactly one second off and changes nothing else; at one second it pauses, zeroes the countdown and minutes and clears the interval |
| Controller.ProgressPercent | src/components/SoundPlayer.tsx:329-334 | while a countdown is shown the progress value lies in (0, 100] |
| Controller.MuteRoundTrip | src/components/SoundPlayer.tsx:201-210 | mute then unmute restores the volume exactly; only the saved volume differs |
| Controller.UnmuteRoundTrip | src/components/SoundPlayer.tsx:201-210 | unmute then mute returns to the same state |
| Controller.StopIdempotent | src/components/SoundPlayer.tsx:175-187 | stopping twice is stopping once |
| Controller.ToggleLoopTwice | src/components/SoundPlayer.tsx:189 | toggling loop twice changes nothing |
| Controller.LastVolumeWins | src/components/SoundPlayer.tsx:191-199 | two slider moves equal the last one alone |
| Controller.PauseResumeKeepsCountdown | src/components/SoundPlayer.tsx:97-103 | pause then play keeps a running countdown's time and duration, under a new tick source, instead of restarting it |
| Countdown.Elapse | src/components/SoundPlayer.tsx:117-129 | (corrected effect) any number of seconds passing keeps the invariant |
| Countdown.CountdownTrace | src/components/SoundPlayer.tsx:117-128 | (corrected effect) while playing, k seconds take exactly k off the countdown; playback stops exactly when it reaches 0, and the minutes are then 0 |
| Countdown.CountdownCompletes | src/components/SoundPlayer.tsx:117-128 | (corrected effect) a playing countdown ends after exactly `timeLeft` seconds: paused, no countdown, minutes 0, no tick source |
| Countdown.IdleIsFixed | src/components/SoundPlayer.tsx:115-133 | (corrected effect) with no tick source, time passing changes nothing |
| Countdown.OneMinuteTimer | src/components/SoundPlayer.tsx:299-321 | (corrected effect) typing 1 and leaving the field while playing arms 60 seconds, after which playback has stopped with no time left |
| Countdown.ArmTwiceTickOnce | src/components/SoundPlayer.tsx:311-321 | (corrected effect) arming twice leaves one interval, so one tick takes one second off |
| Countdown.TickAsWritten | src/components/SoundPlayer.tsx:115-139 | a tick with the effect as written keeps every scheduled interval tracked by the handle |
| Countdown.ElapseAsWritten | src/components/SoundPlayer.tsx:115-139 | time passing with the effect as written keeps every scheduled interval tracked by the handle |
| Countdown.StalledStaysPut | src/components/SoundPlayer.tsx:134-138 | as written, once no interval is scheduled time passing changes nothing |
| Countdown.CountdownStallsAsWritten | src/components/SoundPlayer.tsx:115-139 | as written, a countdown of at least two seconds stops after its first tick: still playing, one second down, handle held, no tick source |
| Countdown.OneMinuteTimerAsWritten | src/components/SoundPlayer.tsx:115-139 | as written, the one-minute timer is still playing after 60 seconds, showing 59 seconds left |
| Player.SoundPlayer.constructor | src/components/SoundPlayer.tsx:33-53 | a new player is in the state at mount and valid |
| Player.SoundPlayer.LoadAudio | src/components/SoundPlayer.tsx:149-150 | setting `src` and `load()` change only the element's source, position and paused flag |
| Player.SoundPlayer.PlayElement | src/components/SoundPlayer.tsx:97 | `play()` unpauses the element when it resolves and changes nothing when rejected |
| Player.SoundPlayer.SyncElementEffects | src/components/SoundPlayer.tsx:79-89 | the element's `loop` and volume are rewritten only when the loop flag, volume or mute changed, the volume to 0 while muted |
| Player.SoundPlayer.IntervalEffect | src/components/SoundPlayer.tsx:115-133 | (corrected effect) only when `isPlaying` or `timeLeft` changed, the interval is started or cancelled as `TickGuard.Guard` decides; nothing else changes |
| Player.SoundPlayer.Rerender | src/components/SoundPlayer.tsx:79-133 | (corrected effect) the commit after a handler: both effects above, leaving the state `Controller.Commit` gives |
| Player.SoundPlayer.SoundSelect | src/components/SoundPlayer.tsx:142-157 | the in-place field updates of the handler body leave the state `Controller.SoundSelect` describes, before any effect runs |
| Player.SoundPlayer.PlayAudio | src/components/SoundPlayer.tsx:91-106 | the in-place updates leave the state `Controller.PlayAudio` describes: reload only on a different source, state untouched when `play()` is rejected |
| Player.SoundPlayer.PauseAudio | src/components/SoundPlayer.tsx:108-113 | the element is paused and `isPlaying` cleared, as `Controller.PauseAudio` describes |
| Player.SoundPlayer.Select | src/components/SoundPlayer.tsx:142-157 | from a valid player, the fields end as `Controller.Select` gives (unknown id: no change; known id: loaded, rewound, playing only on a resolved `play()`) and the player stays valid |
| Player.SoundPlayer.PlayPause | src/components/SoundPlayer.tsx:159-173 | from a valid player, the fields end as `Controller.PlayPause` gives (select-only with nothing selected, pause, or play arming the countdown) and the player stays valid |
| Player.SoundPlayer.Stop | src/components/SoundPlayer.tsx:175-187 | from a valid player, the fields end in the total reset `Controller.Stop` states and the player stays valid |
| Player.SoundPlayer.ToggleLoop | src/components/SoundPlayer.tsx:189 | from a valid player, the loop flag and the element's `loop` flip together, as `Controller.ToggleLoop` states, and the player stays valid |
| Player.SoundPlayer.VolumeChange | src/components/SoundPlayer.tsx:191-199 | from a valid player, volume, mute flag and element volume end as `Controller.VolumeChange` states and the player stays valid |
| Player.SoundPlayer.ToggleMute | src/components/SoundPlayer.tsx:201-210 | from a valid player, the fields end as `Controller.ToggleMute` states (save and zero, or restore) and the player stays valid |
| Player.SoundPlayer.TimerChange | src/components/SoundPlayer.tsx:299-310 | from a valid player, a running countdown and playback are cancelled and the minutes stored, as `Controller.TimerChange` states, and the player stays valid |
| Player.SoundPlayer.TimerBlur | src/components/SoundPlayer.tsx:311-321 | from a valid player, the countdown is armed, cleared or left as `Controller.TimerBlur` states, under at most one interval, and the player stays valid |
| Player.SoundPlayer.AudioEnd | src/components/SoundPlayer.tsx:56-66 | from a valid player, the end of the source stops playback and a running countdown as `Controller.AudioEnd` states, and the player stays valid |
| Player.SoundPlayer.Tick | src/components/SoundPlayer.tsx:117-128 | (corrected effect) from a valid player with an active interval, one second comes off or the countdown ends, as `Controller.Tick` states, and the player stays valid |
| Player.SoundPlayer.Wait | src/components/SoundPlayer.tsx:117-129 | (corrected effect) the loop of once-a-second firings keeps the player valid and ends in the state `Countdown.Elapse` gives, so `Countdown.CountdownCompletes` applies to it |
| Player.FirstPressSelectsOnly | src/components/SoundPlayer.tsx:159-166 | with two sounds and none selected, one press selects the first sound and does not play |
| Player.OneMinuteTimerStops | src/components/SoundPlayer.tsx:299-321 | (corrected effect) select, play, type 1 and leave the field: after 60 seconds the player has stopped with no time left |

## Left out

- Controller.Tick, Controller.TimerBlur, Countdown.Elapse and the `Player.SoundPlayer` handlers: they run the corrected interval effect (`TickGuard.Guard`), not the source's (lines 134-138). The source differs after every tick with more than one second left, and after a blur that re-arms a running countdown with a new value. In both cases its cleanup clears the interval, the handle stays set, and no tick source remains. Those stalled states break `Inv` (a countdown playing with no tick source), so no handler contract covers them. The source's behaviour there is stated only by `TickGuard.RerunAsWritten`, `Controller.CommitAsWritten` and the `Countdown` members named `AsWritten`.
- Countdown.CountdownTrace and TimeFormat.Decimal: JavaScript numbers are doubles, and the model uses exact integers. Above 2^53 seconds, `prevTime - 1` (line 127) can leave the value unchanged, so the source's countdown would never end. From 1e21, `toString()` (line 215) writes exponent form rather than digits only. Such values need a typed timer of about 1.5e14 minutes or more; the model does not capture the double rounding, nor bound `minutes`.

- The JSX, icons, image and the Select, Slider, Input and Progress widgets (lines 218-340) are UI only. The progress value is kept (`Controller.ProgressPercent`), but `formatTime` is not wired to the display.
- The real `HTMLAudioElement` is not modelled: decoding, buffering and the playback position advancing are out. `load()` and `play()` are abstracted as described above.
- `setInterval` and `setTimeout` wall-clock timing is out. Ticks and seconds are explicit steps (`Tick`, `Wait`), with no concurrency.
- The `.then` of `play()` runs later in the source. The model settles it within the same handler, with the state the handler saw.
- Events that arrive between a call to `play()` and its settling are not modelled.
- Player.SoundPlayer.PlayAudio and Controller.PlayAudio: line 93 compares the element's `src`, which the browser reads back as a resolved absolute URL, with the catalog's string. For relative catalog entries such as `./noise_1.mp3` (src/lib/sounds.ts:10-11) the two never match, so the source reloads, and so restarts the track, on every resume. The model stores `src` as written and compares strings, so it reloads only on a different source. Because the model's playback position never advances, a restart would not show in its state anyway.
- The mount effect (lines 51-77) lists `volume` as a dependency, so every volume change replaces the audio element with a new one without a source. Its cleanup also pauses the old element and clears the interval. The model keeps one element for the component's life and treats volume changes as the sync effect at lines 85-89 alone.
- Unmount is not modelled, and neither are React's double invocation of effects in development or the `console` calls.
- react-hook-form and the zod schema are not modelled. `watch("minutes")`, `setValue` and `field.onChange` become writes to `minutes`.
- `parseInt` is not modelled: handlers take its result.
- `disabled` on the timer input while a countdown plays (line 324) is a UI condition, not a precondition. `TimerChange` and `TimerBlur` also accept calls during a countdown, as the handlers themselves do.
- src/components/AiAssistant.tsx, src/ai/flows/suggest-sleep-settings.ts and src/app/page.tsx are not part of this model: form UI, a remote language-model call and page layout.
- Of src/lib/sounds.ts only the `Sound` shape is used. The catalog is a parameter.

## Findings

| source | as written | input that shows it | evidently intended | confidence | as-written member | corrected member |
|---|---|---|---|---|---|---|
| src/components/SoundPlayer.tsx:134-138 | the interval effect's cleanup runs before every re-run (each change of `isPlaying` or `timeLeft`) and clears the interval without nulling `timerIntervalRef`; the body at line 116 then sees a handle and starts no new interval | play a sound, type 1 in the timer field and leave it: after the first tick `timeLeft` is 59 and no interval runs, so after 60 seconds the sound still plays with 59 seconds shown | the countdown runs to 0 and then stops playback and resets the timer (lines 119-125) | not executed | Countdown.OneMinuteTimerAsWritten | Countdown.OneMinuteTimer |
