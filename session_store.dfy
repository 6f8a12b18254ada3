/**
 * The live-session store (app/src/state/useSessionStore.ts). The Zustand store is a class
 * holding one record; each `set({...})` is a record update of the fields it names, so every
 * other field keeps its value.
 */
module SessionStore {
  import opened Wrappers
  import opened VaultTypes

  const InitialHeat: int := 5
  const InitialFlightPath: int := 50
  const MinHeat: int := 0
  const MaxHeat: int := 10

  /** How many cards after the current one the store shows (`slice(1, 3)`). */
  const UpcomingCount: nat := 2

  datatype HeatTarget = Player | Opponent

  datatype SessionState = SessionState(
    currentFlow: Option<Flow>,
    /** position in `currentFlow.sequence` */
    currentIndex: int,
    currentCard: Option<Card>,
    upcomingCards: seq<Card>,
    /** 0..10 scale */
    heatPlayer: int,
    /** 0..10 scale */
    heatOpponent: int,
    /** 0..100 scale */
    flightPath: int,
    /** elapsed time of the current turn, as reported by the turn engine */
    timerElapsed: int,
    isWarning: bool,
    isLive: bool,
    sessionStartedAt: Option<int>)

  const InitialState: SessionState :=
    SessionState(None, 0, None, [], InitialHeat, InitialHeat, InitialFlightPath, 0, false, false, None)

  /**
   * `flow.sequence.map(id => cards.find(c => c.id === id)).filter(c => c !== undefined)`:
   * each id replaced by the first card carrying it, ids with no card dropped, order kept.
   */
  function FlowCards(sequence: seq<string>, cards: seq<Card>): (r: seq<Card>)
    ensures |r| <= |sequence|
    ensures forall c :: c in r ==> c in cards
    ensures r == [] <==> forall i :: 0 <= i < |sequence| ==> FindById(cards, CardId, sequence[i]).None?
  {
    if sequence == [] then []
    else
      assert forall i :: 1 <= i < |sequence| ==> sequence[1..][i - 1] == sequence[i];
      Matched(cards, sequence[0]) + FlowCards(sequence[1..], cards)
  }

  /** What one id contributes to FlowCards: its first card, or nothing. */
  function Matched(cards: seq<Card>, id: string): (r: seq<Card>)
    ensures |r| <= 1
    ensures r == [] <==> FindById(cards, CardId, id).None?
  {
    match FindById(cards, CardId, id)
    case None => []
    case Some(c) => [c]
  }

  /** FlowCards works id by id: it distributes over concatenation, so order is preserved. */
  lemma {:induction false} FlowCardsAppend(s1: seq<string>, s2: seq<string>, cards: seq<Card>)
    ensures FlowCards(s1 + s2, cards) == FlowCards(s1, cards) + FlowCards(s2, cards)
    decreases |s1|
  {
    if s1 == [] {
      assert s1 + s2 == s2;
    } else {
      calc {
        FlowCards(s1 + s2, cards);
        Matched(cards, (s1 + s2)[0]) + FlowCards((s1 + s2)[1..], cards);
        { assert (s1 + s2)[0] == s1[0]; assert (s1 + s2)[1..] == s1[1..] + s2; }
        Matched(cards, s1[0]) + FlowCards(s1[1..] + s2, cards);
        { FlowCardsAppend(s1[1..], s2, cards); }
        Matched(cards, s1[0]) + (FlowCards(s1[1..], cards) + FlowCards(s2, cards));
      }
    }
  }

  /** A sequence that starts with a known id starts its flow cards with that id's first card. */
  lemma FlowCardsFirst(sequence: seq<string>, cards: seq<Card>)
    requires sequence != [] && FindById(cards, CardId, sequence[0]).Some?
    ensures FlowCards(sequence, cards) != []
    ensures FlowCards(sequence, cards)[0] == FindById(cards, CardId, sequence[0]).value
  {
  }

  /** Math.max(0, Math.min(10, x)) */
  function ClampHeat(x: int): (r: int)
    ensures MinHeat <= r <= MaxHeat
    ensures MinHeat <= x <= MaxHeat ==> r == x
    ensures x < MinHeat ==> r == MinHeat
    ensures x > MaxHeat ==> r == MaxHeat
  {
    if x < MinHeat then MinHeat else if x > MaxHeat then MaxHeat else x
  }

  class SessionStore {
    var state: SessionState

    /** What every action keeps: the index stays within the flow, heats within 0..10. */
    ghost predicate Valid()
      reads this
    {
      && (state.currentFlow.None? ==> state.currentIndex == 0)
      && (state.currentFlow.Some? ==> 0 <= state.currentIndex <= |state.currentFlow.value.sequence|)
      && MinHeat <= state.heatPlayer <= MaxHeat
      && MinHeat <= state.heatOpponent <= MaxHeat
    }

    constructor ()
      ensures state == InitialState && Valid()
    {
      state := InitialState;
    }

    /**
     * startSession: throws, changing nothing, when no id of the flow names a card; otherwise
     * starts at index 0 on the first matched card, with the next (at most two) matched cards
     * upcoming, heats back to 5, flight path 50, and the session live.
     */
    method StartSession(flow: Flow, cards: seq<Card>, now: int) returns (ok: bool)
      requires Valid()
      modifies this
      ensures Valid()
      ensures ok <==> exists i :: 0 <= i < |flow.sequence| && FindById(cards, CardId, flow.sequence[i]).Some?
      ensures !ok ==> state == old(state)
      ensures ok ==>
        var fc := FlowCards(flow.sequence, cards);
        && fc != []
        && state == SessionState(Some(flow), 0, Some(fc[0]),
                                 fc[1..if |fc| < 1 + UpcomingCount then |fc| else 1 + UpcomingCount],
                                 InitialHeat, InitialHeat, InitialFlightPath, 0, false, true, Some(now))
    {
      var flowCards := FlowCards(flow.sequence, cards);
      if |flowCards| == 0 {
        return false;
      }
      var upTo := if |flowCards| < 1 + UpcomingCount then |flowCards| else 1 + UpcomingCount;
      state := SessionState(Some(flow), 0, Some(flowCards[0]), flowCards[1..upTo],
                            InitialHeat, InitialHeat, InitialFlightPath, 0, false, true, Some(now));
      return true;
    }

    /**
     * advanceCard: nothing without a flow; past the end it parks the index at the sequence
     * length with no current or upcoming card; otherwise it moves the index on by one and
     * clears the turn timer, leaving the current card as it was.
     */
    method AdvanceCard()
      requires Valid()
      modifies this
      ensures Valid()
      ensures old(state).currentFlow.None? ==> state == old(state)
      ensures old(state).currentFlow.Some? ==>
        var n := |old(state).currentFlow.value.sequence|;
        if old(state).currentIndex + 1 >= n then
          state == old(state).(currentIndex := n, currentCard := None, upcomingCards := [])
        else
          state == old(state).(currentIndex := old(state).currentIndex + 1, timerElapsed := 0, isWarning := false)
    {
      if state.currentFlow.None? {
        return;
      }
      var allCards := state.currentFlow.value.sequence;
      var nextIndex := state.currentIndex + 1;
      if nextIndex >= |allCards| {
        state := state.(currentIndex := |allCards|, currentCard := None, upcomingCards := []);
        return;
      }
      state := state.(currentIndex := nextIndex, timerElapsed := 0, isWarning := false);
    }

    /** adjustHeat: the targeted heat moves by `delta`, clamped to 0..10; nothing else changes. */
    method AdjustHeat(delta: int, target: HeatTarget)
      requires Valid()
      modifies this
      ensures Valid()
      ensures target == Player ==>
        state == old(state).(heatPlayer := ClampHeat(old(state).heatPlayer + delta))
      ensures target == Opponent ==>
        state == old(state).(heatOpponent := ClampHeat(old(state).heatOpponent + delta))
    {
      if target == Player {
        state := state.(heatPlayer := ClampHeat(state.heatPlayer + delta));
      } else {
        state := state.(heatOpponent := ClampHeat(state.heatOpponent + delta));
      }
    }

    /** updateTimer: records what the turn engine last reported. */
    method UpdateTimer(elapsed: int, isWarning: bool)
      requires Valid()
      modifies this
      ensures Valid()
      ensures state == old(state).(timerElapsed := elapsed, isWarning := isWarning)
    {
      state := state.(timerElapsed := elapsed, isWarning := isWarning);
    }

    /** endSession: only `isLive` changes, to false. */
    method EndSession()
      requires Valid()
      modifies this
      ensures Valid()
      ensures state == old(state).(isLive := false)
    {
      state := state.(isLive := false);
    }

    /** resetSession: back to exactly the initial state. */
    method ResetSession()
      modifies this
      ensures Valid()
      ensures state == InitialState
    {
      state := InitialState;
    }
  }

  /**
   * A session over a flow whose first id names a card starts on that card; advancing through
   * the whole flow ends with no current card and the index at the sequence length.
   */
  method PlayThrough(flow: Flow, cards: seq<Card>, now: int) returns (first: Option<Card>, last: SessionState)
    requires flow.sequence != [] && FindById(cards, CardId, flow.sequence[0]).Some?
    ensures first == FindById(cards, CardId, flow.sequence[0])
    ensures last.currentIndex == |flow.sequence| && last.currentCard.None? && last.upcomingCards == []
  {
    var store := new SessionStore();
    FlowCardsFirst(flow.sequence, cards);
    var ok := store.StartSession(flow, cards, now);
    first := store.state.currentCard;
    var n := |flow.sequence|;
    while store.state.currentCard.Some?
      invariant store.Valid() && store.state.currentFlow == Some(flow)
      invariant store.state.currentCard.None? ==> store.state.currentIndex == n && store.state.upcomingCards == []
      invariant store.state.currentCard.Some? ==> store.state.currentIndex < n
      decreases n - store.state.currentIndex
    {
      store.AdvanceCard();
    }
    last := store.state;
  }
}
