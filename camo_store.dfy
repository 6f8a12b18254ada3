/**
 * The camouflage curtain store (app/src/state/useCamoStore.ts): whether the curtain is up,
 * since when, and the session snapshot taken when it went up.
 */
module CamoStore {
  import opened Wrappers
  import opened VaultTypes
  import SessionStore

  /** The session fields the curtain saves: everything but the lifecycle fields. */
  datatype SessionSnapshot = SessionSnapshot(
    currentFlow: Option<Flow>,
    currentIndex: int,
    currentCard: Option<Card>,
    upcomingCards: seq<Card>,
    heatPlayer: int,
    heatOpponent: int,
    flightPath: int,
    timerElapsed: int,
    isWarning: bool)

  /** `Pick<SessionState, ...>` of a session state. */
  function SnapshotOf(s: SessionStore.SessionState): SessionSnapshot
  {
    SessionSnapshot(s.currentFlow, s.currentIndex, s.currentCard, s.upcomingCards,
                    s.heatPlayer, s.heatOpponent, s.flightPath, s.timerElapsed, s.isWarning)
  }

  /**
   * The snapshot keeps exactly the picked fields: two session states snapshot alike if and
   * only if they differ in nothing but `isLive` and `sessionStartedAt`.
   */
  lemma SnapshotsAgree(s: SessionStore.SessionState, t: SessionStore.SessionState)
    ensures SnapshotOf(s) == SnapshotOf(t) <==>
      s.(isLive := t.isLive, sessionStartedAt := t.sessionStartedAt) == t
  {
  }

  datatype CamoState = CamoState(isActive: bool, activatedAt: Option<int>, lastSnapshot: Option<SessionSnapshot>)

  const InitialCamoState: CamoState := CamoState(false, None, None)

  class CamoStore {
    var state: CamoState

    /** The curtain has an activation time exactly while it is up. */
    ghost predicate Valid()
      reads this
    {
      state.isActive <==> state.activatedAt.Some?
    }

    constructor ()
      ensures Valid()
      ensures state == InitialCamoState
    {
      state := InitialCamoState;
    }

    /** activate: curtain up at `now`, saving the snapshot (replacing any earlier one). */
    method Activate(snapshot: SessionSnapshot, now: int)
      modifies this
      ensures Valid()
      ensures state == CamoState(true, Some(now), Some(snapshot))
    {
      state := CamoState(true, Some(now), Some(snapshot));
    }

    /** deactivate: curtain down; the saved snapshot is kept. */
    method Deactivate()
      modifies this
      ensures Valid()
      ensures state == old(state).(isActive := false, activatedAt := None)
      ensures state.lastSnapshot == old(state).lastSnapshot
    {
      state := state.(isActive := false, activatedAt := None);
    }

    /** getSnapshot: returns nothing whatever the state; the snapshot is read from the state. */
    function GetSnapshot(): (r: Option<SessionSnapshot>)
      reads this
      ensures r.None?
    {
      None
    }
  }

  /**
   * Raising the curtain over a live session and lowering it again leaves the curtain down with
   * that session's snapshot saved, while `getSnapshot` still returns nothing.
   */
  method CurtainUpAndDown(session: SessionStore.SessionState, t: int)
    returns (after: CamoState, fromGetter: Option<SessionSnapshot>)
    ensures !after.isActive && after.activatedAt.None?
    ensures after.lastSnapshot == Some(SnapshotOf(session))
    ensures fromGetter.None?
  {
    var camo := new CamoStore();
    camo.Activate(SnapshotOf(session), t);
    camo.Deactivate();
    after := camo.state;
    fromGetter := camo.GetSnapshot();
  }
}
