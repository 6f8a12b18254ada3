/**
 * The four-second turn timer (app/src/turn/TurnEngine.ts), in integer milliseconds. The clock
 * is the `now` argument of each operation; the 50 ms interval is the `ticking` flag, and the
 * interval firing is a call of `Tick(now)` while it is set. Callbacks are recorded only as
 * present or absent; the events a tick produces say which one would have been called.
 */
module Turn {
  const TurnDurationMs: int := 4000
  /** "Never say OK" warning threshold (3.0 s). */
  const WarningThresholdMs: int := 3000

  datatype EngineState = Idle | Running | Paused | Expired

  /** What one tick does. */
  datatype TickEvent =
    | Expiry(expireCallbackCalled: bool)
    | Report(elapsedMs: int, isWarning: bool, tickCallbackCalled: bool)

  function Min(a: int, b: int): int { if a <= b then a else b }

  class TurnEngine {
    var state: EngineState
    /** an interval is installed (`intervalId !== null`) */
    var ticking: bool
    var startTime: int
    var pausedElapsed: int
    var durationMs: int
    var hasTickCallback: bool
    var hasExpireCallback: bool

    /**
     * Between calls: the interval runs exactly while running, an idle engine holds no paused
     * time and a paused one at most the duration. (`expired` is never seen between calls
     * either: the only assignment of it is followed at once by `Stop`.)
     */
    ghost predicate Valid()
      reads this
    {
      && (ticking <==> state == Running)
      && (state == Idle ==> pausedElapsed == 0)
      && (state == Paused ==> pausedElapsed <= durationMs)
    }

    constructor ()
      ensures Valid()
      ensures state == Idle && durationMs == TurnDurationMs && !hasTickCallback && !hasExpireCallback
    {
      state := Idle;
      ticking := false;
      startTime := 0;
      pausedElapsed := 0;
      durationMs := TurnDurationMs;
      hasTickCallback := false;
      hasExpireCallback := false;
    }

    /** getElapsed: 0 when idle, frozen when paused, never more than the duration. */
    function Elapsed(now: int): (r: int)
      requires Valid()
      reads this
      ensures state != Idle ==> r <= durationMs
      ensures state == Idle ==> r == 0
      ensures state == Paused ==> r == pausedElapsed
      ensures state == Running && now - startTime <= durationMs ==> r == now - startTime
      ensures state == Running && now - startTime >= durationMs ==> r == durationMs
    {
      match state
      case Idle => 0
      case Paused => pausedElapsed
      case Expired => durationMs
      case Running => Min(now - startTime, durationMs)
    }

    /**
     * getRemaining: never negative; whenever the duration itself is not negative the clamp
     * never bites, so remaining + elapsed is the duration.
     */
    function Remaining(now: int): (r: int)
      requires Valid()
      reads this
      ensures r >= 0
      ensures durationMs >= 0 ==> r + Elapsed(now) == durationMs
      ensures Elapsed(now) >= durationMs ==> r == 0
    {
      var remaining := durationMs - Elapsed(now);
      if remaining < 0 then 0 else remaining
    }

    /**
     * start: a no-op while running; otherwise (from idle or paused, so a restart rather than
     * a resume) runs the given duration from `now` with nothing paused.
     */
    method Start(now: int, duration: int := TurnDurationMs)
      requires Valid()
      modifies this
      ensures Valid()
      ensures old(state) == Running ==> unchanged(this)
      ensures old(state) != Running ==>
        && state == Running && ticking && durationMs == duration
        && startTime == now && pausedElapsed == 0
        && hasTickCallback == old(hasTickCallback) && hasExpireCallback == old(hasExpireCallback)
      ensures old(state) != Running ==> forall t :: Elapsed(t) == Min(t - now, duration)
    {
      if state == Running {
        return;
      }
      durationMs := duration;
      startTime := now;
      pausedElapsed := 0;
      state := Running;
      ticking := true;
    }

    /** pause: acts only while running, and freezes the elapsed time it reads at `now`. */
    method Pause(now: int)
      requires Valid()
      modifies this
      ensures Valid()
      ensures old(state) != Running ==> unchanged(this)
      ensures old(state) == Running ==>
        && state == Paused && !ticking
        && pausedElapsed == old(Elapsed(now))
        && startTime == old(startTime) && durationMs == old(durationMs)
        && hasTickCallback == old(hasTickCallback) && hasExpireCallback == old(hasExpireCallback)
      ensures old(state) == Running ==> forall t :: Elapsed(t) == old(Elapsed(now))
    {
      if state != Running {
        return;
      }
      pausedElapsed := Elapsed(now);
      state := Paused;
      ticking := false;
    }

    /**
     * resume: acts only while paused; `d` ms later the elapsed time is the frozen time
     * plus `d`, capped at the duration.
     */
    method Resume(now: int)
      requires Valid()
      modifies this
      ensures Valid()
      ensures old(state) != Paused ==> unchanged(this)
      ensures old(state) == Paused ==>
        && state == Running && ticking
        && startTime == now - old(pausedElapsed)
        && pausedElapsed == old(pausedElapsed) && durationMs == old(durationMs)
        && hasTickCallback == old(hasTickCallback) && hasExpireCallback == old(hasExpireCallback)
      ensures old(state) == Paused ==>
        forall t :: Elapsed(t) == Min(old(pausedElapsed) + (t - now), durationMs)
    {
      if state != Paused {
        return;
      }
      startTime := now - pausedElapsed;
      state := Running;
      ticking := true;
    }

    /** stop: from any state, idle with no interval and nothing paused. */
    method Stop()
      modifies this
      ensures state == Idle && !ticking && pausedElapsed == 0
      ensures startTime == old(startTime) && durationMs == old(durationMs)
      ensures hasTickCallback == old(hasTickCallback) && hasExpireCallback == old(hasExpireCallback)
      ensures Valid()
    {
      ticking := false;
      state := Idle;
      pausedElapsed := 0;
    }

    /** reset: stop, then start again with the same duration; elapsed is back to 0. */
    method Reset(now: int)
      requires Valid()
      modifies this
      ensures Valid()
      ensures state == Running && ticking && durationMs == old(durationMs)
      ensures startTime == now && pausedElapsed == 0
      ensures hasTickCallback == old(hasTickCallback) && hasExpireCallback == old(hasExpireCallback)
      ensures durationMs >= 0 ==> Elapsed(now) == 0
    {
      Stop();
      Start(now, durationMs);
    }

    method OnTick()
      modifies this
      ensures hasTickCallback
      ensures state == old(state) && ticking == old(ticking) && startTime == old(startTime)
      ensures pausedElapsed == old(pausedElapsed) && durationMs == old(durationMs)
      ensures hasExpireCallback == old(hasExpireCallback)
    {
      hasTickCallback := true;
    }

    method OnExpire()
      modifies this
      ensures hasExpireCallback
      ensures state == old(state) && ticking == old(ticking) && startTime == old(startTime)
      ensures pausedElapsed == old(pausedElapsed) && durationMs == old(durationMs)
      ensures hasTickCallback == old(hasTickCallback)
    {
      hasExpireCallback := true;
    }

    /**
     * One firing of the interval. At or past the duration the turn expires: the engine
     * stops (so `expired` is overwritten at once and no further tick can fire), the expire
     * callback runs if there is one and the tick callback does not. Below the duration the
     * tick callback gets the elapsed time and whether it has reached the warning threshold,
     * and nothing changes.
     */
    method Tick(now: int) returns (ev: TickEvent)
      requires Valid() && ticking
      modifies this
      ensures Valid()
      ensures old(Elapsed(now)) >= old(durationMs) ==>
        && ev == Expiry(hasExpireCallback)
        && state == Idle && !ticking && pausedElapsed == 0
        && startTime == old(startTime) && durationMs == old(durationMs)
        && hasTickCallback == old(hasTickCallback) && hasExpireCallback == old(hasExpireCallback)
      ensures old(Elapsed(now)) < old(durationMs) ==>
        && ev == Report(old(Elapsed(now)), old(Elapsed(now)) >= WarningThresholdMs, hasTickCallback)
        && unchanged(this)
    {
      var elapsed := Elapsed(now);
      if elapsed >= durationMs {
        state := Expired;
        Stop();
        ev := Expiry(hasExpireCallback);
        return;
      }
      var isWarning := elapsed >= WarningThresholdMs;
      ev := Report(elapsed, isWarning, hasTickCallback);
    }

    /** destroy: stopped, with both callbacks dropped. */
    method Destroy()
      modifies this
      ensures Valid()
      ensures state == Idle && !ticking && pausedElapsed == 0 && !hasTickCallback && !hasExpireCallback
      ensures startTime == old(startTime) && durationMs == old(durationMs)
    {
      Stop();
      hasTickCallback := false;
      hasExpireCallback := false;
    }
  }

  /**
   * A turn paused `p` ms after it started (within the turn) reads `p` for as long as it stays
   * paused, and `p + d` (up to the duration) `d` ms after it is resumed.
   */
  method PauseAndResume(t0: int, p: nat, later: int, resumeAt: int, d: int)
    returns (frozen: int, frozenLater: int, resumed: int)
    requires p <= TurnDurationMs
    ensures frozen == p && frozenLater == p
    ensures resumed == Min(p + d, TurnDurationMs)
  {
    var engine := new TurnEngine();
    engine.Start(t0);
    engine.Pause(t0 + p);
    frozen := engine.Elapsed(t0 + p);
    frozenLater := engine.Elapsed(later);
    engine.Resume(resumeAt);
    resumed := engine.Elapsed(resumeAt + d);
  }

  /**
   * With an expire callback registered, the first tick at or after the full duration fires
   * it once and leaves the engine idle and silent; a new `start` runs a fresh turn.
   */
  method ExpireThenRestart(t0: int, t1: int, t2: int) returns (ev: TickEvent, after: EngineState, restarted: int)
    requires t1 >= t0 + TurnDurationMs
    ensures ev == Expiry(true)
    ensures after == Idle
    ensures restarted == 0
  {
    var engine := new TurnEngine();
    engine.OnExpire();
    engine.Start(t0);
    assert engine.Elapsed(t1) == TurnDurationMs;
    ev := engine.Tick(t1);
    after := engine.state;
    engine.Start(t2);
    restarted := engine.Elapsed(t2);
  }
}
