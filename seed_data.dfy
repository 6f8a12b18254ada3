/**
 * The demonstration vault contents (app/src/vault/seedData.ts): fifteen cards and three flows,
 * with the integrity facts the rest of the app relies on.
 */
module SeedData {
  import opened Wrappers
  import opened VaultTypes
  import SessionStore

  const EngageFlightManifest: Card :=
    Card("engage.flight-manifest", Air, Cardinal, Engagement,
         "We're following my checklist\U{2014}first up is the timeline.",
         "Establish flight path agenda. Keep tone firm and measured.",
         0, 5, Some(0), 1)

  const EngageReceiptBrief: Card :=
    Card("engage.receipt-brief", Earth, Cardinal, Engagement,
         "I've got the receipts printed; we'll go through them one at a time.",
         "Signal evidence ready. Maintain calm authority.",
         0, 4, Some(0), 1)

  const TrapFlightLock: Card :=
    Card("trap.flight-lock", Air, Fixed, Trap,
         "Pause. We finish this timeline before touching anything else.",
         "Lock conversation lane. Sets up combo opportunity.",
         1, 6, Some(2), 1)

  const TrapMirrorAsk: Card :=
    Card("trap.mirror-ask", Water, Mutable, Trap,
         "Repeat exactly when you say that happened\U{2014}I'm logging it.",
         "Force them to restate claim. Catch inconsistency.",
         0, 3, Some(0), 1)

  const CounterTimeoutShield: Card :=
    Card("counter.timeout-shield", Earth, Fixed, Counter,
         "No timeouts\U{2014}you're trying to dodge the point and we're not moving.",
         "Block timeout attempt. Deploy within 2 seconds.",
         1, 2, Some(1), 1)

  const CounterDarvoInvert: Card :=
    Card("counter.darvo-invert", Fire, Mutable, Counter,
         "Nice try flipping this\U{2014}answer the original question now.",
         "Recognize DARVO. Slam back to topic immediately.",
         1, 5, Some(0), 1)

  const CounterFlyingMonkey: Card :=
    Card("counter.flying-monkey", Air, Mutable, Counter,
         "That's their narrative\U{2014}show me YOUR evidence or stop repeating it.",
         "Break flying monkey pattern. Demand original thought.",
         2, 4, Some(1), 1)

  const TruthGovLedger: Card :=
    Card("truth.gov-ledger", Earth, Cardinal, Truth,
         "Here's the probate filing\U{2014}page 3 proves what I said.",
         "Flash verified document. Keep tone neutral.",
         0, 7, Some(0), 1)

  const ReceiptTimelineShare: Card :=
    Card("receipt.timeline-share", Air, Fixed, Receipts,
         "I logged every call with screenshots; we're reviewing them now.",
         "Force factual plane. Maintain calm, clinical tone.",
         1, 6, Some(0), 1)

  const CalmBreathAnchor: Card :=
    Card("calm.breath-anchor", Water, Fixed, Calm,
         "Pause. I'm steady, and I'll continue once you stop shouting.",
         "Reduce own heat. Mirror deep breathing.",
         -2, 1, Some(0), 1)

  const CalmGrounding: Card :=
    Card("calm.grounding", Earth, Fixed, Calm,
         "Let's bring it down. Facts first, emotion second.",
         "De-escalate heat. Return to logical frame.",
         -1, 2, Some(0), 1)

  const SpiritAngelGuard: Card :=
    Card("spirit.angel-guard", Fire, Cardinal, Spirit,
         "Angels hear everything\U{2014}we're keeping this honest right now.",
         "Spiritual wedge. Religious opponents reluctant to attack.",
         0, 4, Some(0), 1)

  const SpiritTruthWitness: Card :=
    Card("spirit.truth-witness", Fire, Fixed, Spirit,
         "If you believe in God, then stand on truth\U{2014}not manipulation.",
         "Force religious consistency. Hold moral high ground.",
         1, 5, Some(1), 1)

  const ComboLockdownInit: Card :=
    Card("combo.lockdown-init", Air, Cardinal, Combo,
         "Lock it in\U{2014}facts first, then whatever fantasy you're trying next.",
         "Enables Lockdown combo with Counter + Truth cards.",
         1, 2, Some(0), 1)

  const ComboTripleCalm: Card :=
    Card("combo.triple-calm", Water, Mutable, Combo,
         "Bring it down. Now you'll listen while I lay out the sequence.",
         "Chains Calm \U{2192} Empathy \U{2192} Intelligence combo.",
         -1, 3, Some(0), 1)

  /** The fifteen seed cards, in deck order. */
  const SeedCards: seq<Card> := [
    EngageFlightManifest, EngageReceiptBrief, TrapFlightLock,
    TrapMirrorAsk, CounterTimeoutShield, CounterDarvoInvert,
    CounterFlyingMonkey, TruthGovLedger, ReceiptTimelineShare,
    CalmBreathAnchor, CalmGrounding, SpiritAngelGuard,
    SpiritTruthWitness, ComboLockdownInit, ComboTripleCalm
  ]

  const FauxIntervention: Flow :=
    Flow("flow.faux-intervention",
         "Faux Intervention Defense",
         "Family stages \"intervention\" to label you schizophrenic",
         ["engage.flight-manifest",
          "trap.flight-lock",
          "counter.timeout-shield",
          "truth.gov-ledger",
          "counter.darvo-invert",
          "spirit.angel-guard",
          "receipt.timeline-share",
          "calm.breath-anchor",
          "combo.lockdown-init"],
         ["counter.timeout-shield", "counter.darvo-invert"],
         1)

  const TimeoutGauntlet: Flow :=
    Flow("flow.timeout-gauntlet",
         "Timeout Counter Drill",
         "Opponent repeatedly tries to interrupt and dodge",
         ["engage.receipt-brief",
          "counter.timeout-shield",
          "trap.mirror-ask",
          "counter.timeout-shield",
          "calm.grounding",
          "truth.gov-ledger",
          "counter.darvo-invert"],
         ["counter.timeout-shield"],
         1)

  const DarvoCounter: Flow :=
    Flow("flow.darvo-counter",
         "DARVO Shutdown Sequence",
         "Opponent flips victim/offender roles",
         ["trap.flight-lock",
          "counter.darvo-invert",
          "receipt.timeline-share",
          "counter.darvo-invert",
          "spirit.truth-witness",
          "truth.gov-ledger",
          "calm.breath-anchor"],
         ["counter.darvo-invert", "counter.flying-monkey"],
         1)

  /** The three seed flows. */
  const SeedFlows: seq<Flow> := [FauxIntervention, TimeoutGauntlet, DarvoCounter]

  /** A card with this id is in the seed deck. */
  predicate IsSeedCard(id: string)
  {
    FindById(SeedCards, CardId, id).Some?
  }

  /** Fifteen cards, as the deck's own comment says, and three flows. */
  lemma SeedSizes()
    ensures |SeedCards| == 15
    ensures |SeedFlows| == 3
  {
  }

  /** No two seed cards share an id. */
  lemma SeedCardIdsDistinct()
    ensures forall i, j :: 0 <= i < j < |SeedCards| ==> SeedCards[i].id != SeedCards[j].id
  {
  }

  /** No two seed flows share an id. */
  lemma SeedFlowIdsDistinct()
    ensures forall i, j :: 0 <= i < j < |SeedFlows| ==> SeedFlows[i].id != SeedFlows[j].id
  {
  }

  /** Every seed card's heat impact and flight delta lie in the documented ranges. */
  lemma SeedCardsInRange()
    ensures forall k :: 0 <= k < |SeedCards| ==> HeatImpactInRange(SeedCards[k]) && FlightDeltaInRange(SeedCards[k])
  {
  }

  /** The lookup of a seed card's id finds that card. */
  lemma SeedCardLookup(k: nat)
    requires k < |SeedCards|
    ensures FindById(SeedCards, CardId, SeedCards[k].id) == Some(SeedCards[k])
  {
    SeedCardIdsDistinct();
    FindByIdFirst(SeedCards, CardId, k);
  }

  /** The ids each seed flow uses, written as positions in the seed deck. */
  lemma SeedFlowsByPosition()
    ensures SeedFlows[0].sequence == [SeedCards[0].id, SeedCards[2].id, SeedCards[4].id, SeedCards[7].id,
      SeedCards[5].id, SeedCards[11].id, SeedCards[8].id, SeedCards[9].id, SeedCards[13].id]
    ensures SeedFlows[1].sequence == [SeedCards[1].id, SeedCards[4].id, SeedCards[3].id, SeedCards[4].id,
      SeedCards[10].id, SeedCards[7].id, SeedCards[5].id]
    ensures SeedFlows[2].sequence == [SeedCards[2].id, SeedCards[5].id, SeedCards[8].id, SeedCards[5].id,
      SeedCards[12].id, SeedCards[7].id, SeedCards[9].id]
    ensures SeedFlows[0].requiredCounters == [SeedCards[4].id, SeedCards[5].id]
    ensures SeedFlows[1].requiredCounters == [SeedCards[4].id]
    ensures SeedFlows[2].requiredCounters == [SeedCards[5].id, SeedCards[6].id]
  {
  }

  /** Every id in every seed flow's sequence names a seed card. */
  lemma SeedSequencesResolve()
    ensures forall f, id :: f in SeedFlows && id in f.sequence ==> IsSeedCard(id)
  {
    SeedFlowsByPosition();
    forall f, id | f in SeedFlows && id in f.sequence
      ensures IsSeedCard(id)
    {
      var k :| 0 <= k < |SeedCards| && SeedCards[k].id == id;
      SeedCardLookup(k);
    }
  }

  /** Every counter a seed flow requires is a seed card of class Counter. */
  lemma SeedRequiredCountersAreCounters()
    ensures forall f, id :: f in SeedFlows && id in f.requiredCounters ==>
      && IsSeedCard(id)
      && FindById(SeedCards, CardId, id).value.cardClass == Counter
  {
    SeedFlowsByPosition();
    forall f, id | f in SeedFlows && id in f.requiredCounters
      ensures IsSeedCard(id) && FindById(SeedCards, CardId, id).value.cardClass == Counter
    {
      var i :| 0 <= i < |SeedFlows| && SeedFlows[i] == f;
      assert id == SeedCards[4].id || id == SeedCards[5].id || id == SeedCards[6].id;
      if id == SeedCards[4].id {
        SeedCardLookup(4);
        assert SeedCards[4].cardClass == Counter;
      } else if id == SeedCards[5].id {
        SeedCardLookup(5);
        assert SeedCards[5].cardClass == Counter;
      } else {
        SeedCardLookup(6);
        assert SeedCards[6].cardClass == Counter;
      }
    }
  }

  /** The first id of each seed flow names a seed card. */
  lemma SeedFlowHeadResolves(i: nat)
    requires i < |SeedFlows|
    ensures SeedFlows[i].sequence != []
    ensures FindById(SeedCards, CardId, SeedFlows[i].sequence[0]).Some?
  {
    SeedFlowsByPosition();
    assert SeedFlows[i].sequence[0] == SeedCards[i].id;
    SeedCardLookup(i);
  }

  /** Hence starting a session on any seed flow with the seed deck never throws. */
  lemma SeedFlowsStart()
    ensures forall f :: f in SeedFlows ==> SessionStore.FlowCards(f.sequence, SeedCards) != []
  {
    forall i | 0 <= i < |SeedFlows|
      ensures SessionStore.FlowCards(SeedFlows[i].sequence, SeedCards) != []
    {
      SeedFlowHeadResolves(i);
      SessionStore.FlowCardsFirst(SeedFlows[i].sequence, SeedCards);
    }
  }
}
