/**
 * The vault's data model (app/src/vault/types.ts). JavaScript numbers are integers here and
 * ISO-8601 timestamps are milliseconds since the epoch.
 */
module VaultTypes {
  import opened Wrappers

  /** Spiritual, intellectual, emotional or physical nature. */
  datatype CardElement = Fire | Air | Water | Earth

  /** Attack, block or parry stance. */
  datatype CardModality = Cardinal | Fixed | Mutable

  /** Tactical role. */
  datatype CardClass = Engagement | Trap | Counter | Calm | Truth | Spirit | Receipts | Combo

  const AllElements: seq<CardElement> := [Fire, Air, Water, Earth]
  const AllModalities: seq<CardModality> := [Cardinal, Fixed, Mutable]
  const AllClasses: seq<CardClass> := [Engagement, Trap, Counter, Calm, Truth, Spirit, Receipts, Combo]

  /** One card of tactical response language. */
  datatype Card = Card(
    /** unique identifier, e.g. "engage.flight-manifest" */
    id: string,
    element: CardElement,
    modality: CardModality,
    /** the `class` field of the TypeScript record */
    cardClass: CardClass,
    /** the line the player speaks aloud */
    line: string,
    /** private coaching text */
    cue: string,
    /** documented to lie in -2..+3 */
    heatImpact: int,
    /** documented to lie in -5..+10 */
    flightDelta: int,
    /** turns before the card can be reused; optional */
    cooldown: Option<int>,
    version: int)

  /** A route through the deck for one scenario. */
  datatype Flow = Flow(
    id: string,
    title: string,
    trigger: string,
    /** ordered card ids to cycle through */
    sequence: seq<string>,
    /** ids of the counter cards the player should have */
    requiredCounters: seq<string>,
    version: int)

  /** The decrypted vault content. */
  datatype VaultData = VaultData(
    cards: seq<Card>,
    flows: seq<Flow>,
    /** base64 of the salt the key was derived from */
    salt: string,
    /** schema version */
    version: int,
    lastModified: int)

  /** Lockout state, stored unencrypted beside the vault. */
  datatype VaultMetadata = VaultMetadata(
    /** the JSON field `exists`: whether a vault has been initialised */
    created: bool,
    createdAt: Option<int>,
    /** failures since the last successful unlock */
    failedAttempts: int,
    /** drives the lockout timer; optional */
    lastFailedAttempt: Option<int>)

  function CardId(c: Card): string { c.id }

  function FlowId(f: Flow): string { f.id }

  /**
   * Array.prototype.find by id: the first element whose id is `id`, or nothing when no
   * element has it.
   */
  function FindById<T(==)>(xs: seq<T>, idOf: T -> string, id: string): (r: Option<T>)
    ensures r.None? <==> forall j :: 0 <= j < |xs| ==> idOf(xs[j]) != id
    ensures r.Some? ==>
      exists k :: 0 <= k < |xs| && xs[k] == r.value && idOf(xs[k]) == id &&
        forall j :: 0 <= j < k ==> idOf(xs[j]) != id
  {
    if xs == [] then None
    else if idOf(xs[0]) == id then Some(xs[0])
    else
      var r := FindById(xs[1..], idOf, id);
      assert forall j :: 1 <= j < |xs| ==> xs[1..][j - 1] == xs[j];
      r
  }

  /** An element whose id no earlier element carries is what the lookup of that id finds. */
  lemma FindByIdFirst<T>(xs: seq<T>, idOf: T -> string, k: nat)
    requires k < |xs|
    requires forall j :: 0 <= j < k ==> idOf(xs[j]) != idOf(xs[k])
    ensures FindById(xs, idOf, idOf(xs[k])) == Some(xs[k])
  {
    var r := FindById(xs, idOf, idOf(xs[k]));
    var k' :| 0 <= k' < |xs| && xs[k'] == r.value && idOf(xs[k']) == idOf(xs[k]) &&
      forall j :: 0 <= j < k' ==> idOf(xs[j]) != idOf(xs[k]);
    assert k' == k;
  }

  predicate HeatImpactInRange(c: Card) {
    -2 <= c.heatImpact <= 3
  }

  predicate FlightDeltaInRange(c: Card) {
    -5 <= c.flightDelta <= 10
  }

  /** The unions of types.ts have exactly 4, 3 and 8 members, listed without repetition. */
  lemma EnumerationsComplete()
    ensures |AllElements| == 4 && forall e: CardElement :: e in AllElements
    ensures |AllModalities| == 3 && forall m: CardModality :: m in AllModalities
    ensures |AllClasses| == 8 && forall c: CardClass :: c in AllClasses
    ensures forall i, j :: 0 <= i < j < |AllClasses| ==> AllClasses[i] != AllClasses[j]
    ensures forall i, j :: 0 <= i < j < |AllElements| ==> AllElements[i] != AllElements[j]
    ensures forall i, j :: 0 <= i < j < |AllModalities| ==> AllModalities[i] != AllModalities[j]
  {
    forall e: CardElement ensures e in AllElements {
      match e
      case Fire => assert AllElements[0] == e;
      case Air => assert AllElements[1] == e;
      case Water => assert AllElements[2] == e;
      case Earth => assert AllElements[3] == e;
    }
    forall m: CardModality ensures m in AllModalities {
      match m
      case Cardinal => assert AllModalities[0] == m;
      case Fixed => assert AllModalities[1] == m;
      case Mutable => assert AllModalities[2] == m;
    }
    forall c: CardClass ensures c in AllClasses {
      match c
      case Engagement => assert AllClasses[0] == c;
      case Trap => assert AllClasses[1] == c;
      case Counter => assert AllClasses[2] == c;
      case Calm => assert AllClasses[3] == c;
      case Truth => assert AllClasses[4] == c;
      case Spirit => assert AllClasses[5] == c;
      case Receipts => assert AllClasses[6] == c;
      case Combo => assert AllClasses[7] == c;
    }
  }
}
