/**
 * The in-memory vault store (app/src/state/useVaultStore.ts): whether the vault is unlocked,
 * the PIN held for the session, and the decrypted cards and flows.
 */
module VaultStore {
  import opened Wrappers
  import opened VaultTypes

  datatype VaultState = VaultState(
    isUnlocked: bool,
    pin: Option<string>,
    cards: seq<Card>,
    flows: seq<Flow>,
    salt: Option<string>,
    lastModified: Option<int>)

  /** Locked, and holding nothing. */
  const LockedState: VaultState := VaultState(false, None, [], [], None, None)

  class VaultStore {
    var state: VaultState

    /**
     * A locked store holds no PIN and no salt. (Its cards and flows can still be replaced:
     * the update actions do not look at the lock state.)
     */
    ghost predicate Valid()
      reads this
    {
      !state.isUnlocked ==> state.pin.None? && state.salt.None?
    }

    constructor ()
      ensures state == LockedState && Valid()
    {
      state := LockedState;
    }

    /** unlock: holds the PIN and everything the decrypted vault carries. */
    method Unlock(pin: string, data: VaultData)
      modifies this
      ensures Valid()
      ensures state == VaultState(true, Some(pin), data.cards, data.flows, Some(data.salt), Some(data.lastModified))
      ensures forall k :: 0 <= k < |data.cards| ==> GetCardById(data.cards[k].id).Some?
    {
      state := VaultState(true, Some(pin), data.cards, data.flows, Some(data.salt), Some(data.lastModified));
    }

    /** lock: back to the initial state; no lookup finds anything any more. */
    method Lock()
      modifies this
      ensures Valid()
      ensures state == LockedState
      ensures forall id :: GetCardById(id).None? && GetFlowById(id).None?
    {
      state := LockedState;
    }

    /**
     * updateCards: replaces the cards and stamps `now`; the flows, PIN, salt and lock state
     * stay as they were.
     */
    method UpdateCards(cards: seq<Card>, now: int)
      requires Valid()
      modifies this
      ensures Valid()
      ensures state == old(state).(cards := cards, lastModified := Some(now))
    {
      state := state.(cards := cards, lastModified := Some(now));
    }

    /** updateFlows: the same for the flows. */
    method UpdateFlows(flows: seq<Flow>, now: int)
      requires Valid()
      modifies this
      ensures Valid()
      ensures state == old(state).(flows := flows, lastModified := Some(now))
    {
      state := state.(flows := flows, lastModified := Some(now));
    }

    /** getCardById: the first held card with this id, if any. */
    function GetCardById(id: string): (r: Option<Card>)
      reads this
      ensures r.None? <==> forall j :: 0 <= j < |state.cards| ==> state.cards[j].id != id
      ensures r.Some? ==> r.value in state.cards && r.value.id == id
      ensures r.Some? ==>
        exists j :: 0 <= j < |state.cards| && state.cards[j] == r.value &&
                    forall k :: 0 <= k < j ==> state.cards[k].id != id
    {
      FindById(state.cards, CardId, id)
    }

    /** getFlowById: the first held flow with this id, if any. */
    function GetFlowById(id: string): (r: Option<Flow>)
      reads this
      ensures r.None? <==> forall j :: 0 <= j < |state.flows| ==> state.flows[j].id != id
      ensures r.Some? ==> r.value in state.flows && r.value.id == id
      ensures r.Some? ==>
        exists j :: 0 <= j < |state.flows| && state.flows[j] == r.value &&
                    forall k :: 0 <= k < j ==> state.flows[k].id != id
    {
      FindById(state.flows, FlowId, id)
    }
  }

  /**
   * Unlocking with vault data makes each of its cards findable; editing the cards keeps the
   * flows; locking forgets everything.
   */
  method UnlockEditLock(pin: string, data: VaultData, edited: seq<Card>, now: int)
    returns (foundBefore: bool, flowsKept: bool, foundAfterLock: bool)
    requires data.cards != []
    ensures foundBefore && flowsKept && !foundAfterLock
  {
    var store := new VaultStore();
    store.Unlock(pin, data);
    foundBefore := store.GetCardById(data.cards[0].id).Some?;
    store.UpdateCards(edited, now);
    flowsKept := store.state.flows == data.flows;
    store.Lock();
    foundAfterLock := store.GetCardById(data.cards[0].id).Some?;
  }
}
