/**
  The pending Resume record and what each store operation writes. Identifiers come from a counter,
  times are integers, and a missing or null field is None.
 */
module Resume {
  import opened Wrappers
  import opened Tokens

  type Id = nat

  datatype Key = Key(resumeId: string, version: int)

  datatype Status = Pending | InFlight | Delivered | Cancelled

  datatype ConsoleScope = ConsoleScope(project: string, task: string)

  /** What a committed hand-off binds: the exact destination of one attempt. */
  datatype ScopeIdentity = ScopeIdentity(
    key: Key, project: string, task: string, workstream: string, targets: set<Token>, session: string)

  datatype Commit = Commit(attempt: Id, committedAt: int, scope: ScopeIdentity)

  datatype Record = Record(
    key: Key,
    status: Status,
    attempt: Option<Id>,
    injectionEvent: Option<Id>,
    acknowledgedEvent: Option<Id>,
    failedEvent: Option<Id>,
    injectionMethod: Option<string>,
    workstream: Option<string>,
    text: Option<string>,
    targets: set<Token>,
    console: Option<ConsoleScope>,
    session: Option<string>,
    serverSession: Option<string>,
    turn: Option<string>,
    injectedAt: Option<int>,
    contextReturnedAt: Option<int>,
    deliveredAt: Option<int>,
    failedAt: Option<int>,
    error: Option<string>,
    expiresAt: int,
    scopeCommit: Option<Commit>)

  type Directory = map<Key, Record>

  /** A Resume Packet; the text is None when it exceeds the injection limit even after reduction. */
  datatype Packet = Packet(key: Key, project: Option<string>, task: Option<string>, text: Option<string>)

  const METHOD := "hermes-pre-llm-call"

  /** The life of a pending copy, twenty-four hours in microseconds. */
  const PENDING_TTL := 24 * 3600 * 1_000_000

  function Or<T>(first: Option<T>, second: T): T {
    if first.Some? then first.value else second
  }

  // ---------------------------------------------------------------- queue

  datatype QueueOutcome = Rejected | Kept(record: Record) | Written(record: Record)

  predicate Expired(record: Record, now: int) {
    record.expiresAt <= now
  }

  /** An expired pending copy may be renewed, by a fresh Console confirmation of a Console copy only. */
  predicate Renewable(existing: Record, console: bool, now: int) {
    console && existing.console.Some? && existing.status == Pending && Expired(existing, now)
  }

  function PacketScope(packet: Packet, console: bool): Option<ConsoleScope> {
    if console && packet.project.Some? && packet.task.Some?
    then Some(ConsoleScope(packet.project.value, packet.task.value))
    else None
  }

  function FreshRecord(packet: Packet, text: string, targets: set<Token>, workstream: string, console: bool,
                       prior: Option<Commit>, now: int, id: Id): Record {
    Record(packet.key, Pending, Some(id), Some(id + 1), None, None, Some(METHOD), Some(workstream), Some(text),
           targets, PacketScope(packet, console), None, None, None, None, None, None, None, None,
           now + PENDING_TTL, prior)
  }

  function Queue(dir: Directory, packet: Packet, targets: set<Token>, workstream: string, console: bool,
                 now: int, id: Id): QueueOutcome {
    if packet.key.version < 1 || targets == {} || (console && PacketScope(packet, console).None?) then
      Rejected
    else if packet.key in dir && dir[packet.key].status != Cancelled
            && !Renewable(dir[packet.key], console, now) then
      Kept(dir[packet.key])
    else if packet.text.None? then
      Rejected
    else
      var prior := if packet.key in dir then dir[packet.key].scopeCommit else None;
      Written(FreshRecord(packet, packet.text.value, targets, workstream, console, prior, now, id))
  }

  // ---------------------------------------------------------------- claim

  predicate OwnClaim(record: Record, session: string) {
    record.status == InFlight && record.session == Some(session)
  }

  predicate Claimable(record: Record, candidates: set<Token>, session: string, now: int) {
    !Expired(record, now) &&
    (OwnClaim(record, session) || (record.status == Pending && candidates * record.targets != {}))
  }

  /** The host's session and turn, with their protocol identifiers already derived. */
  datatype Caller = Caller(session: string, serverSession: string, turn: string)

  function Claimed(record: Record, caller: Caller, workstream: string, now: int, id: Id): Record {
    if OwnClaim(record, caller.session) then
      record
    else
      record.(attempt := Some(Or(record.attempt, id)),
              injectionEvent := Some(Or(record.injectionEvent, id + 1)),
              injectionMethod := Some(Or(record.injectionMethod, METHOD)),
              workstream := Some(Or(record.workstream, workstream)),
              status := InFlight,
              session := Some(caller.session),
              serverSession := Some(caller.serverSession),
              turn := Some(caller.turn),
              injectedAt := Some(now))
  }

  // ---------------------------------------------------------------- hand-off, cancellation

  predicate HoldsAttempt(record: Record, attempt: Id) {
    record.status == InFlight && record.attempt == Some(attempt)
  }

  /** What the hand-off of this record would commit; the workstream is present on every claimed record. */
  function CommitOf(record: Record, attempt: Id, at: int): Commit
    requires record.console.Some?
  {
    Commit(attempt, at, ScopeIdentity(record.key, record.console.value.project, record.console.value.task,
                                      Or(record.workstream, ""), record.targets, Or(record.session, "")))
  }

  /** The record after its hand-off; a prepared scope, with its own stamp, is committed in the same write. */
  function HandedOff(record: Record, now: int, commit: Option<Commit>): Record {
    record.(contextReturnedAt := Some(now),
            scopeCommit := if commit.Some? then commit else record.scopeCommit)
  }

  predicate Cancellable(record: Record, attempt: Id) {
    record.attempt == Some(attempt) && record.console.Some? && record.contextReturnedAt.None?
  }

  function CancelledCopy(record: Record, code: string): Record {
    record.(text := None, console := None, status := Cancelled, error := Some(code))
  }

  // ---------------------------------------------------------------- terminal outcomes

  /** A handed-off Console record: late callbacks must leave it alone. */
  predicate Frozen(record: Record) {
    record.status == InFlight && record.console.Some? && record.contextReturnedAt.Some?
  }

  function FailedCopy(record: Record, code: string, now: int, id: Id): Record {
    record.(failedEvent := Some(Or(record.failedEvent, id)), failedAt := Some(now), error := Some(code))
  }

  function RetryRecord(record: Record, id: Id): Record {
    record.(attempt := Some(id), injectionEvent := Some(id + 1),
            acknowledgedEvent := None, failedEvent := None, status := Pending,
            session := None, serverSession := None, turn := None, injectedAt := None, contextReturnedAt := None)
  }

  datatype Phase = Injected | Acknowledged | Failed

  datatype Terminal = Terminal(phase: Phase, emitted: Record, stored: Record)

  predicate HandoffMissing(record: Record) {
    record.console.Some? && record.contextReturnedAt.None?
  }

  /** What the end of a turn makes of an in-flight record: what it emits, and what it stores. */
  function Finished(record: Record, success: bool, now: int, id: Id): Terminal {
    if success && !HandoffMissing(record) then
      var delivered := record.(status := Delivered,
                               acknowledgedEvent := Some(Or(record.acknowledgedEvent, id)),
                               deliveredAt := Some(now));
      Terminal(Acknowledged, delivered, delivered)
    else
      var code := if success then "context_not_handed_off" else "agent_turn_failed";
      Terminal(Failed, FailedCopy(record, code, now, id), RetryRecord(record, id + 1))
  }

  /** A restart, or a late failure, fails the attempt whatever it had reached. */
  function Aborted(record: Record, code: string, now: int, id: Id): Terminal {
    Terminal(Failed, FailedCopy(record, code, now, id), RetryRecord(record, id + 1))
  }

  // ---------------------------------------------------------------- injection events

  datatype Payload = Payload(
    eventId: Id, attempt: Id, version: int, phase: Phase, session: string, turn: string, workstream: string,
    injectionMethod: string, occurredAt: Option<int>, error: Option<string>)

  /** None where the source refuses a record that lacks an identifier. */
  function InjectionEventPayload(record: Record, phase: Phase): (payload: Option<Payload>)
    ensures payload.Some? ==> payload.value.phase == phase && record.attempt == Some(payload.value.attempt)
  {
    var event := match phase
      case Injected => record.injectionEvent
      case Acknowledged => record.acknowledgedEvent
      case Failed => record.failedEvent;
    var occurredAt := match phase
      case Injected => record.injectedAt
      case Acknowledged => record.deliveredAt
      case Failed => record.failedAt;
    if event.None? || record.attempt.None? || record.serverSession.None? || record.turn.None?
       || record.workstream.None? || record.injectionMethod.None? then
      None
    else
      Some(Payload(event.value, record.attempt.value, record.key.version, phase, record.serverSession.value,
                   record.turn.value, record.workstream.value, record.injectionMethod.value, occurredAt,
                   if phase == Failed then Some(Or(record.error, "agent_turn_failed")) else None))
  }

  /** A record that its claim has filled in: it can report its injection and its outcome. */
  predicate CompleteClaim(record: Record) {
    && record.attempt.Some? && record.injectionEvent.Some? && record.injectionMethod.Some? && record.workstream.Some?
    && record.session.Some? && record.serverSession.Some? && record.turn.Some?
  }
}
