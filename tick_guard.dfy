/** The one-second tick source of the sound player: the interval handle
    kept in `timerIntervalRef` together with the browser's table of
    scheduled intervals, and the effect that starts and cancels the
    interval (SoundPlayer.tsx:115-139). */
module TickGuard {
  import opened Optional

  /** `handle` is `timerIntervalRef.current`; `scheduled` holds the ids of
      the intervals the browser will still fire; `nextId` is the id the
      next `setInterval` returns. */
  datatype Timers = Timers(handle: Option<nat>, scheduled: set<nat>, nextId: nat)

  const NoTimers := Timers(None, {}, 0)

  function Held(t: Timers): set<nat>
  {
    match t.handle
    case None => {}
    case Some(h) => {h}
  }

  /** Every scheduled interval is the one whose handle is kept. */
  predicate Tracked(t: Timers)
  {
    t.scheduled <= Held(t) && (t.handle.Some? ==> t.handle.value < t.nextId)
  }

  /** Tracked, and the kept handle is still scheduled. */
  predicate Consistent(t: Timers)
  {
    Tracked(t) && t.scheduled == Held(t)
  }

  /** A tick source is active: the browser will fire a tick. */
  predicate Active(t: Timers)
  {
    t.scheduled != {}
  }

  /** No interval is ever leaked: at most one tick source exists. */
  lemma AtMostOneSource(t: Timers)
    requires Tracked(t)
    ensures |t.scheduled| <= 1
    ensures Active(t) ==> t.scheduled == {t.handle.value}
  {
    if t.handle.Some? {
      assert t.scheduled <= {t.handle.value};
      if t.scheduled != {} {
        assert t.scheduled == {t.handle.value};
      }
    }
  }

  /** `timerIntervalRef.current = setInterval(...)`: a fresh id, scheduled and
      held. From a table holding nothing it is the single tick source. */
  function Start(t: Timers): (r: Timers)
    ensures Active(r) && r.handle == Some(t.nextId) && r.nextId > t.nextId
    ensures Tracked(t) && t.handle.None? ==> Consistent(r) && r.scheduled == {t.nextId}
  {
    Timers(Some(t.nextId), t.scheduled + {t.nextId}, t.nextId + 1)
  }

  /** `clearInterval(timerIntervalRef.current); timerIntervalRef.current = null`,
      guarded by `if (timerIntervalRef.current)` as every caller does. */
  function Cancel(t: Timers): (r: Timers)
    requires Tracked(t)
    ensures Consistent(r) && !Active(r) && r.handle.None? && r.nextId == t.nextId
  {
    match t.handle
    case None => t
    case Some(h) => Timers(None, t.scheduled - {h}, t.nextId)
  }

  /** The effect body (lines 116-133): start an interval when playing with
      time left and none is held; drop the held one when not playing or
      no time is left. */
  function Body(t: Timers, playing: bool, timeLeft: int): (r: Timers)
    requires Tracked(t)
    ensures Tracked(r)
    ensures playing && timeLeft > 0 ==> r.handle.Some?
    ensures t.handle.Some? && playing && timeLeft > 0 ==> r == t
    ensures !(playing && timeLeft > 0) ==> r.handle.None? && !Active(r)
  {
    if playing && timeLeft > 0 && t.handle.None? then Start(t)
    else if (!playing || timeLeft <= 0) && t.handle.Some? then Cancel(t)
    else t
  }

  /** A re-run of the effect with its cleanup kept for unmount only, which
      is what the guard `!timerIntervalRef.current` evidently expects.
      From a consistent state the result has an active
      tick source exactly when playing with time left, keeps a running
      source instead of starting a second one, and starts a fresh one
      otherwise. */
  function Guard(t: Timers, playing: bool, timeLeft: int): (r: Timers)
    requires Consistent(t)
    ensures Consistent(r)
    ensures Active(r) <==> playing && timeLeft > 0
    ensures Active(t) && playing && timeLeft > 0 ==> r == t
    ensures !Active(t) && playing && timeLeft > 0 ==> r.handle == Some(t.nextId)
    ensures !(playing && timeLeft > 0) ==> r.handle.None?
    ensures r.nextId >= t.nextId
  {
    Body(t, playing, timeLeft)
  }

  /** The effect's cleanup (lines 134-138): clears the held interval but
      leaves the handle in `timerIntervalRef`. */
  function Cleanup(t: Timers): (r: Timers)
    ensures Tracked(t) ==> Tracked(r) && !Active(r)
    ensures r.handle == t.handle && r.nextId == t.nextId
  {
    match t.handle
    case None => t
    case Some(h) => t.(scheduled := t.scheduled - {h})
  }

  /** A re-run of the effect as the source has it: React runs the previous
      cleanup before the body whenever `isPlaying` or `timeLeft` changes.
      No interval leaks, but a held interval is cleared while its handle
      stays set, so the body never starts a new one: with time left and
      playing, no tick source remains. */
  function RerunAsWritten(t: Timers, playing: bool, timeLeft: int): (r: Timers)
    requires Tracked(t)
    ensures Tracked(r)
    ensures t.handle.Some? && playing && timeLeft > 0 ==> r.handle == t.handle && !Active(r)
    ensures t.handle.None? && playing && timeLeft > 0 ==> Active(r)
    ensures !(playing && timeLeft > 0) ==> r.handle.None? && !Active(r)
  {
    Body(Cleanup(t), playing, timeLeft)
  }

  /** With no handle held the cleanup has nothing to clear, so the source's
      re-run and the corrected one agree until the first interval starts. */
  lemma AgreeWithoutHandle(t: Timers, playing: bool, timeLeft: int)
    requires Consistent(t) && t.handle.None?
    ensures RerunAsWritten(t, playing, timeLeft) == Guard(t, playing, timeLeft)
  {
  }
}
