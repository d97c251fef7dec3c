/** Envelopes, and the receipts that confirm them. */
module Receipts {
  import opened Wrappers

  datatype Time = Text(at: nat) | NotText

  datatype InjectionPhase = Injected | Acknowledged | Failed

  /** What an injection event claims of its attempt. */
  datatype Claim = Claim(
    resumeId: string, version: int, attempt: string, phase: InjectionPhase, session: string, turn: string,
    workstream: string, occurredAt: string)

  /** The content of a queued file; claim is present in the injection queue. */
  datatype Content =
    | Envelope(eventId: string, session: string, time: Time, terminal: bool, claim: Option<Claim>, body: string)
    | Garbage(bytes: string)

  datatype Attempt = Attempt(
    id: string, session: string, turn: string, workstream: string, injectedAt: Option<string>,
    acknowledgedAt: Option<string>, failedAt: Option<string>, eventIds: seq<string>, ackComplete: bool)

  /** Decoded answers; None where a field is missing or, for a count, no number. */
  datatype Receipt =
    | EventReceipt(status: string, received: Option<real>, inserted: Option<real>, duplicate: Option<real>,
                   acceptedEventIds: Option<seq<string>>)
    | InjectionReceipt(eventId: string, injected: int, repeated: int, resumeId: string, version: int,
                       attempts: seq<Attempt>)

  predicate ConfirmsEvent(receipt: Receipt, eventId: string)
    requires receipt.EventReceipt?
  {
    && eventId != "" && receipt.status == "accepted" && receipt.received == Some(1.0)
    && receipt.inserted in {Some(0.0), Some(1.0)} && receipt.duplicate in {Some(0.0), Some(1.0)}
    && receipt.inserted.value + receipt.duplicate.value == 1.0
    && receipt.acceptedEventIds == Some([eventId])
  }

  function PhaseTime(attempt: Attempt, phase: InjectionPhase): Option<string> {
    match phase
    case Injected => attempt.injectedAt
    case Acknowledged => attempt.acknowledgedAt
    case Failed => attempt.failedAt
  }

  /** The first listed attempt with this identifier. */
  function FindAttempt(attempts: seq<Attempt>, id: string): (found: Option<Attempt>)
    ensures found.Some? ==> found.value in attempts && found.value.id == id
    ensures found.None? ==> forall a :: a in attempts ==> a.id != id
  {
    if attempts == [] then None
    else if attempts[0].id == id then Some(attempts[0])
    else FindAttempt(attempts[1..], id)
  }

  predicate ConfirmsInjection(receipt: Receipt, eventId: string, claim: Claim)
    requires receipt.InjectionReceipt?
  {
    var found := FindAttempt(receipt.attempts, claim.attempt);
    && receipt.eventId == eventId && receipt.injected + receipt.repeated == 1
    && receipt.resumeId == claim.resumeId && receipt.version == claim.version
    && found.Some? && found.value.session == claim.session && found.value.turn == claim.turn
    && found.value.workstream == claim.workstream
    && PhaseTime(found.value, claim.phase) == Some(claim.occurredAt) && eventId in found.value.eventIds
    && (claim.phase == Acknowledged ==> found.value.ackComplete)
  }

  /** The receipt is for this envelope, of its own queue. */
  predicate Confirms(receipt: Receipt, content: Content) {
    content.Envelope? &&
    match receipt
    case EventReceipt(_, _, _, _, _) => content.claim.None? && ConfirmsEvent(receipt, content.eventId)
    case InjectionReceipt(_, _, _, _, _, _) =>
      content.claim.Some? && ConfirmsInjection(receipt, content.eventId, content.claim.value)
  }

  /**
    A receipt confirms one event only: whatever two envelopes it confirms carry the same event, and an
    event receipt counts it exactly once, as new or as known.
   */
  lemma ReceiptNamesOneEvent(receipt: Receipt, content: Content, other: Content)
    requires Confirms(receipt, content) && Confirms(receipt, other)
    ensures content.eventId == other.eventId
    ensures receipt.EventReceipt? ==> (receipt.inserted == Some(1.0)) != (receipt.duplicate == Some(1.0))
  {
    if receipt.EventReceipt? {
      assert receipt.acceptedEventIds.value[0] == content.eventId;
    }
  }

  /** What a server that keeps its word answers for an event it stored now, or had stored. */
  function HonestReceipt(content: Content, known: bool): Receipt
    requires content.Envelope?
  {
    if content.claim.None? then
      EventReceipt("accepted", Some(1.0), Some(if known then 0.0 else 1.0), Some(if known then 1.0 else 0.0),
                   Some([content.eventId]))
    else
      var c := content.claim.value;
      var at := (phase: InjectionPhase) => if phase == c.phase then Some(c.occurredAt) else None;
      InjectionReceipt(content.eventId, if known then 0 else 1, if known then 1 else 0, c.resumeId, c.version,
                       [Attempt(c.attempt, c.session, c.turn, c.workstream, at(Injected), at(Acknowledged), at(Failed),
                                [content.eventId], c.phase == Acknowledged)])
  }

  /**
    Such an answer is accepted, the first time and when a delivery is repeated; only an event without an
    identifier can never be confirmed.
   */
  lemma HonestReceiptConfirms(content: Content, known: bool)
    requires content.Envelope?
    ensures Confirms(HonestReceipt(content, known), content) <==> content.claim.Some? || content.eventId != ""
  {
    if content.claim.Some? {
      var attempts := HonestReceipt(content, known).attempts;
      assert FindAttempt(attempts, content.claim.value.attempt) == Some(attempts[0]);
      assert content.eventId in attempts[0].eventIds;
    }
  }
}
