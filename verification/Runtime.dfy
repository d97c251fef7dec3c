/**
  The hooks as the host calls them, over the two stores. What the server and the network do comes in as
  parameters; the queue of injection events keeps what could not be sent.
 */
module Runtime {
  import opened Wrappers
  import opened Tokens
  import opened Stores
  import R = Resume
  import S = Scopes

  /** The answer to a request for a Console Resume confirmed for this session. */
  datatype Remote = Nothing | Offer(packet: R.Packet, workstream: string) | Unavailable

  /** The answer to an injection event; Stale is a conflict that the server will not take back. */
  datatype Answer = Accepted | Stale(code: string) | Refused(error: string)

  /** What the host gets from the hook before a model call; Broken is a failure that leaves the hook. */
  datatype Reply = Context(text: string) | Silence | Broken

  /**
    The events that the server would accept now, and those whose file the queue would fail to write; all of
    them fail both ways when there is no client to be had.
   */
  datatype Fates = Fates(accepted: set<R.Id>, unwritable: set<R.Id>)

  /** The events that went out, and those that went into the queue. */
  datatype Mail = Mail(sent: seq<R.Payload>, queued: seq<R.Payload>)

  const UNCONFIRMED := "injection_not_confirmed"

  // ---------------------------------------------------------------- what each part of the hook does

  /** A claimable record is claimed, if there is one; nothing else changes. */
  ghost predicate Claims(before: R.Directory, id: R.Id, candidates: set<Token>, caller: R.Caller, workstream: string,
                         clock: Clock, claim: Option<R.Record>, after: R.Directory) {
    if claim.None? then
      after == before && forall k :: k in before ==> !R.Claimable(before[k], candidates, caller.session, At(clock, k))
    else
      exists k :: k in before && R.Claimable(before[k], candidates, caller.session, At(clock, k))
        && claim.value == R.Claimed(before[k], caller, workstream, At(clock, k), id)
        && after == before[k := claim.value]
  }

  /** The store once an offer of the Console has been queued, and the next identifier; none if it was rejected. */
  function Offered(before: R.Directory, id: R.Id, packet: R.Packet, session: string, workstream: string, now: int)
    : Option<(R.Directory, R.Id)>
  {
    match R.Queue(before, packet, ScopeTokens("", "", "", session), workstream, true, now, id)
    case Rejected => None
    case Kept(_) => Some((before, id))
    case Written(record) => Some((before[packet.key := record], id + 2))
  }

  /** A local claim, or else one of what the Console offers this very session. */
  ghost predicate Takes(before: R.Directory, id: R.Id, candidates: set<Token>, caller: R.Caller, workstream: string,
                        message: bool, remote: Remote, clock: Clock, now: int, claim: Option<R.Record>,
                        after: R.Directory) {
    if (exists k :: k in before && R.Claimable(before[k], candidates, caller.session, At(clock, k)))
       || caller.session == "" || !message || !remote.Offer?
    then Claims(before, id, candidates, caller, workstream, clock, claim, after)
    else
      var offered := Offered(before, id, remote.packet, caller.session, remote.workstream, now);
      if offered.None? then claim.None? && after == before
      else Claims(offered.value.0, offered.value.1, candidates, caller, workstream, clock, claim, after)
  }

  /** The declaration of this record is accepted. */
  predicate Declared(record: R.Record, answer: Answer) {
    && record.contextReturnedAt.None? && record.text.Some? && R.InjectionEventPayload(record, R.Injected).Some?
    && answer.Accepted?
  }

  /** The scope that a Console copy prepares is for its exact destination: the session that holds it. */
  predicate Destined(stored: R.Record, record: R.Record, session: string) {
    record.console.Some? ==>
      && stored.console.Some?
      && Stageable(ConsolePacket(record), ScopeTokens("", "", "", session), R.Or(record.workstream, ""),
                   Some(R.CommitOf(stored, R.Or(record.attempt, 0), 0).scope))
  }

  function ConsolePacket(record: R.Record): R.Packet
    requires record.console.Some?
  {
    R.Packet(record.key, Some(record.console.value.project), Some(record.console.value.task), record.text)
  }

  /** The stored record can be handed off for this claim. */
  predicate Ready(stored: R.Record, record: R.Record, session: string) {
    && R.HoldsAttempt(stored, R.Or(record.attempt, 0)) && stored.contextReturnedAt.None?
    && Destined(stored, record, session)
  }

  /**
    The claimed attempt was handed off just now, with its binding if the Console confirmed it; nothing else
    changed.
   */
  ghost predicate HandedOff(record: R.Record, session: string, now: int, before: R.Directory, after: R.Directory,
                            scopes: S.Directory) {
    exists k, commit: Option<R.Commit> ::
      && k in before && Ready(before[k], record, session) && after == before[k := R.HandedOff(before[k], now, commit)]
      && (commit.Some? <==> record.console.Some?)
      && (commit.Some? ==> commit.value.attempt == R.Or(record.attempt, 0) && S.PreparedKey(commit.value) in scopes)
  }

  /** The authorization is cancelled, unless nothing can be, or its hand-off has happened. */
  ghost predicate Cancels(attempt: R.Id, code: string, before: R.Directory, after: R.Directory) {
    || (exists k ::
          k in before && R.Cancellable(before[k], attempt) && after == before[k := R.CancelledCopy(before[k], code)])
    || (after == before
        && ((forall k :: k in before ==> !R.Cancellable(before[k], attempt)) ||
            exists k :: k in before && before[k].attempt == Some(attempt) && before[k].contextReturnedAt.Some?))
  }

  /**
    The attempt fails, its record starts over, and the failure is queued, unless none holds it or a hand-off
    froze it. When the queue fails the report is lost and the failure leaves the hook; the record has started
    over all the same.
   */
  ghost predicate GivesUp(attempt: R.Id, clock: Clock, id: R.Id, unwritable: set<R.Id>, reply: Reply,
                          before: R.Directory, after: R.Directory, queued: seq<R.Payload>, queued': seq<R.Payload>) {
    || (exists k ::
          && k in before && R.HoldsAttempt(before[k], attempt) && !R.Frozen(before[k])
          && var outcome := R.Aborted(before[k], UNCONFIRMED, At(clock, k), id);
          && after == before[k := outcome.stored] && queued' == queued + Queueing(outcome, unwritable)
          && reply == if Lost(outcome, Fates({}, unwritable)) then Broken else Silence)
    || (after == before && queued' == queued && reply == Silence
        && ((forall k :: k in before ==> !R.HoldsAttempt(before[k], attempt)) ||
            exists k :: k in before && R.HoldsAttempt(before[k], attempt) && R.Frozen(before[k])))
  }

  /** A report that cannot be built, or is refused by the server and then by the queue. */
  predicate Lost(outcome: R.Terminal, fates: Fates) {
    var payload := R.InjectionEventPayload(outcome.emitted, outcome.phase);
    payload.None? || (payload.value.eventId !in fates.accepted && payload.value.eventId in fates.unwritable)
  }

  function Queueing(outcome: R.Terminal, unwritable: set<R.Id>): seq<R.Payload> {
    if Lost(outcome, Fates({}, unwritable)) then []
    else [R.InjectionEventPayload(outcome.emitted, outcome.phase).value]
  }

  /** What follows a claim, branch by branch. */
  ghost predicate HandsOver(record: R.Record, session: string, answer: Answer, clock: Clock, now: int, id: R.Id,
                            unwritable: set<R.Id>, reply: Reply, before: R.Directory, after: R.Directory,
                            queued: seq<R.Payload>, queued': seq<R.Payload>, scopes: S.Directory) {
    var attempt := R.Or(record.attempt, 0);
    if record.contextReturnedAt.Some? then reply == Silence && after == before && queued' == queued
    else if Declared(record, answer) then
      if reply.Context? then
        record.text == Some(reply.text) && queued' == queued && HandedOff(record, session, now, before, after, scopes)
      else
        || (after == before && queued' == queued && reply == Silence
            && ((forall k :: k in before ==> !R.HoldsAttempt(before[k], attempt)) ||
                exists k :: k in before && R.HoldsAttempt(before[k], attempt) && before[k].contextReturnedAt.Some?))
        || ((exists k :: k in before && R.HoldsAttempt(before[k], attempt) && before[k].contextReturnedAt.None?
                         && !Destined(before[k], record, session))
            && GivesUp(attempt, clock, id, unwritable, reply, before, after, queued, queued'))
    else if record.console.Some? && answer.Stale? then
      reply == Silence && queued' == queued && Cancels(attempt, answer.code, before, after)
    else GivesUp(attempt, clock, id, unwritable, reply, before, after, queued, queued')
  }

  /**
    When every record under the attempt is ready for it, and there is one, an accepted declaration yields
    the context.
   */
  lemma ReadyGetsContext(record: R.Record, session: string, answer: Answer, clock: Clock, now: int, id: R.Id,
                         unwritable: set<R.Id>, reply: Reply, before: R.Directory, after: R.Directory,
                         queued: seq<R.Payload>, queued': seq<R.Payload>, scopes: S.Directory)
    requires HandsOver(record, session, answer, clock, now, id, unwritable, reply, before, after, queued, queued',
                       scopes)
    requires forall j, k ::
      (j in before && k in before && R.HoldsAttempt(before[j], R.Or(record.attempt, 0))
       && R.HoldsAttempt(before[k], R.Or(record.attempt, 0))) ==> j == k
    ensures reply.Context? <==>
      Declared(record, answer) && exists k :: k in before && Ready(before[k], record, session)
  {
  }

  // ---------------------------------------------------------------- reports of outcomes

  /** Each outcome is sent, or queued when that fails; the first that is lost takes the rest with it. */
  function Mailed(outcomes: seq<R.Terminal>, fates: Fates): Mail
    decreases |outcomes|
  {
    if outcomes == [] || Lost(outcomes[0], fates) then Mail([], [])
    else
      var payload, rest := R.InjectionEventPayload(outcomes[0].emitted, outcomes[0].phase).value,
                           Mailed(outcomes[1..], fates);
      if payload.eventId in fates.accepted then Mail([payload] + rest.sent, rest.queued)
      else Mail(rest.sent, [payload] + rest.queued)
  }

  /** Its report went out, or is in the queue. */
  predicate Reported(outcome: R.Terminal, mail: Mail) {
    var payload := R.InjectionEventPayload(outcome.emitted, outcome.phase);
    payload.Some? && (payload.value in mail.sent || payload.value in mail.queued)
  }

  /** What comes before the first lost outcome is reported, one report each; nothing else is. */
  lemma {:induction false} ReportedUntilLost(outcomes: seq<R.Terminal>, fates: Fates, n: nat)
    requires n <= |outcomes| && forall i :: 0 <= i < n ==> !Lost(outcomes[i], fates)
    requires n < |outcomes| ==> Lost(outcomes[n], fates)
    ensures var mail := Mailed(outcomes, fates);
      && mail == Mailed(outcomes[..n], fates) && |mail.sent| + |mail.queued| == n
      && (forall i :: 0 <= i < n ==> Reported(outcomes[i], mail))
      && (n < |outcomes| ==> !Reported(outcomes[n], mail))
    decreases n
  {
    if n > 0 {
      var rest := outcomes[1..];
      assert outcomes[..n][1..] == rest[..n - 1] && forall i :: 0 < i < |outcomes| ==> outcomes[i] == rest[i - 1];
      ReportedUntilLost(rest, fates, n - 1);
      if n < |outcomes| {
        LostIsNotReported(outcomes, fates, outcomes[n]);
      }
    }
  }

  lemma {:induction false} LostIsNotReported(outcomes: seq<R.Terminal>, fates: Fates, lost: R.Terminal)
    requires Lost(lost, fates)
    ensures !Reported(lost, Mailed(outcomes, fates))
    decreases |outcomes|
  {
    if outcomes != [] && !Lost(outcomes[0], fates) {
      LostIsNotReported(outcomes[1..], fates, lost);
    }
  }

  /** Every outcome is reported exactly when none of them is lost. */
  lemma {:induction false} AllReportedIff(outcomes: seq<R.Terminal>, fates: Fates)
    ensures (forall o :: o in outcomes ==> Reported(o, Mailed(outcomes, fates)))
       <==> (forall o :: o in outcomes ==> !Lost(o, fates))
  {
    if o :| o in outcomes && Lost(o, fates) {
      LostIsNotReported(outcomes, fates, o);
    } else {
      ReportedUntilLost(outcomes, fates, |outcomes|);
    }
  }

  lemma OutcomeHasReport(pass: Pass, record: R.Record, at: int, id: R.Id)
    requires R.CompleteClaim(record)
    ensures var outcome := pass.Outcome(record, at, id); R.InjectionEventPayload(outcome.emitted, outcome.phase).Some?
  {
  }

  lemma {:induction false} AllHaveReports(dir: R.Directory, ending: seq<R.Key>, pass: Pass, clock: Clock, id: R.Id)
    requires forall k :: k in ending ==> k in dir && R.CompleteClaim(dir[k])
    ensures forall o :: o in OutcomesOf(dir, ending, pass, clock, id) ==>
      R.InjectionEventPayload(o.emitted, o.phase).Some?
  {
    if ending != [] {
      OutcomeHasReport(pass, dir[ending[0]], At(clock, ending[0]), id);
      AllHaveReports(dir, ending[1..], pass, clock, id + 3);
    }
  }

  /** An outcome that the server refuses and the queue cannot take. */
  predicate Stranded(outcome: R.Terminal, fates: Fates) {
    var payload := R.InjectionEventPayload(outcome.emitted, outcome.phase);
    payload.Some? && payload.value.eventId !in fates.accepted && payload.value.eventId in fates.unwritable
  }

  /** The records that a pass ends are ones that their claims filled in. */
  ghost predicate Complete(dir: R.Directory, pass: Pass) {
    forall k :: k in dir && pass.Ends(dir[k]) ==> R.CompleteClaim(dir[k])
  }

  /**
    A pass over records that their claims filled in has one outcome for each record it ends, and reports all
    of them, at once or through the queue, exactly when the queue takes each one that the server does not.
   */
  lemma PassReportsAllIff(dir: R.Directory, id: R.Id, files: seq<R.Key>, pass: Pass, clock: Clock, fates: Fates)
    requires Listing(files, dir) && Complete(dir, pass)
    ensures var outcomes := SettleAll(Batch(dir, id, []), files, pass, clock).outcomes;
      && |outcomes| == |Ending(dir, files, pass)|
      && ((forall o :: o in outcomes ==> Reported(o, Mailed(outcomes, fates)))
          <==> (forall o :: o in outcomes ==> !Stranded(o, fates)))
  {
    var batch, ending := Batch(dir, id, []), Ending(dir, files, pass);
    SettleAllOutcomes(batch, files, pass, clock);
    var outcomes := SettleAll(batch, files, pass, clock).outcomes;
    assert outcomes == OutcomesOf(dir, ending, pass, clock, id);
    AllHaveReports(dir, ending, pass, clock, id);
    assert forall o :: o in outcomes ==> (Stranded(o, fates) <==> Lost(o, fates));
    AllReportedIff(outcomes, fates);
  }

  class PluginRuntime {
    const pending: PendingResumeStore
    const scopes: TaskScopeStore
    var queued: seq<R.Payload>

    constructor (pending: PendingResumeStore, scopes: TaskScopeStore)
      ensures this.pending == pending && this.scopes == scopes && queued == []
    {
      this.pending, this.scopes, queued := pending, scopes, [];
    }

    method TakeClaim(candidates: set<Token>, caller: R.Caller, message: bool, remote: Remote, clock: Clock, now: int)
      returns (claim: Option<R.Record>)
      modifies pending
      ensures Takes(old(pending.records), old(pending.nextId), candidates, caller, pending.workstream, message, remote,
                    clock, now, claim, pending.records)
    {
      ghost var file;
      claim, file := pending.Claim(candidates, caller, clock);
      if claim.None? && caller.session != "" && message {
        match remote
        case Unavailable => return None;
        case Nothing =>
        case Offer(packet, workstream) =>
          var outcome := pending.Queue(packet, ScopeTokens("", "", "", caller.session), Some(workstream), true, now);
          if outcome.Rejected? {
            return None;
          }
          claim, file := pending.Claim(candidates, caller, clock);
      }
    }

    /**
      Declares the injection, then commits the hand-off; only then is the context the host's. A failure
      gives the attempt up: a stale Console copy is cancelled, any other is failed and reported.
     */
    method HandOver(record: R.Record, session: string, answer: Answer, clock: Clock, now: int,
                    unwritable: set<R.Id>)
      returns (reply: Reply)
      requires scopes.pending == pending && record.attempt.Some?
      modifies this, pending, scopes
      ensures HandsOver(record, session, answer, clock, now, old(pending.nextId), unwritable, reply,
                        old(pending.records), pending.records, old(queued), queued, scopes.scopes)
    {
      if record.contextReturnedAt.Some? {
        return Silence;
      }
      var attempt := record.attempt.value;
      if record.text.Some? && R.InjectionEventPayload(record, R.Injected).Some? && answer.Accepted? {
        var prepare := None;
        if record.console.Some? {
          prepare := Some(Preparation(scopes, ConsolePacket(record), ScopeTokens("", "", "", session),
                                      R.Or(record.workstream, "")));
        }
        var result;
        ghost var file, commit;
        result, file, commit := pending.MarkContextReturned(attempt, prepare, now);
        if result == Marked {
          return Context(record.text.value);
        }
        if result == NotMarked {
          return Silence;
        }
      }
      if record.console.Some? && answer.Stale? {
        var cancelled;
        ghost var file;
        cancelled, file := pending.CancelConsoleAuthorization(attempt, answer.code);
        return Silence;
      }
      reply := GiveUp(attempt, clock, unwritable);
    }

    method GiveUp(attempt: R.Id, clock: Clock, unwritable: set<R.Id>) returns (reply: Reply)
      modifies this, pending
      ensures GivesUp(attempt, clock, old(pending.nextId), unwritable, reply, old(pending.records), pending.records,
                      old(queued), queued)
    {
      var failed, file := pending.Fail(attempt, UNCONFIRMED, clock);
      if failed.Some? {
        var written := QueueInjectionEvent(failed.value, unwritable);
        if !written {
          return Broken;
        }
      }
      reply := Silence;
    }

    /** Writes the report of an outcome into the queue; false when it cannot be built or written. */
    method QueueInjectionEvent(outcome: R.Terminal, unwritable: set<R.Id>) returns (written: bool)
      modifies this
      ensures written <==> !Lost(outcome, Fates({}, unwritable))
      ensures queued == old(queued) + Queueing(outcome, unwritable)
    {
      var payload := R.InjectionEventPayload(outcome.emitted, outcome.phase);
      if payload.None? || payload.value.eventId in unwritable {
        return false;
      }
      queued := queued + [payload.value];
      written := true;
    }

    /** Claims and hands over; claimed is the store between the two. */
    method Deliver(candidates: set<Token>, caller: R.Caller, message: bool, remote: Remote, answer: Answer,
                   clock: Clock, now: int, unwritable: set<R.Id>)
      returns (reply: Reply, ghost claim: Option<R.Record>, ghost claimed: R.Directory, ghost id: R.Id)
      requires scopes.pending == pending
      modifies this, pending, scopes
      ensures Takes(old(pending.records), old(pending.nextId), candidates, caller, pending.workstream, message, remote,
                    clock, now, claim, claimed)
      ensures if claim.None? || claim.value.attempt.None?
        then reply == Silence && pending.records == claimed && queued == old(queued)
        else HandsOver(claim.value, caller.session, answer, clock, now, id, unwritable, reply, claimed,
                       pending.records, old(queued), queued, scopes.scopes)
    {
      var taken := TakeClaim(candidates, caller, message, remote, clock, now);
      claim, claimed, id := taken, pending.records, pending.nextId;
      if taken.None? || taken.value.attempt.None? {
        return Silence, claim, claimed, id;
      }
      reply := HandOver(taken.value, caller.session, answer, clock, now, unwritable);
    }

    /**
      The hook before a model call, run alone: nothing while the queue of injection events cannot be flushed;
      else a claim, and what follows from it.
     */
    method PreLlmCall(candidates: set<Token>, caller: R.Caller, message: bool, flushed: bool, remote: Remote,
                      answer: Answer, clock: Clock, now: int, unwritable: set<R.Id>)
      returns (reply: Reply, ghost claim: Option<R.Record>, ghost claimed: R.Directory, ghost id: R.Id)
      requires scopes.pending == pending && S.Valid(scopes.scopes)
      modifies this, pending, scopes
      ensures !flushed ==> reply == Silence && pending.records == old(pending.records) && queued == old(queued)
      ensures flushed ==> Takes(old(pending.records), old(pending.nextId), candidates, caller, pending.workstream,
                                message, remote, clock, now, claim, claimed)
      ensures flushed ==>
        if claim.None? || claim.value.attempt.None?
        then reply == Silence && pending.records == claimed && queued == old(queued)
        else HandsOver(claim.value, caller.session, answer, clock, now, id, unwritable, reply, claimed,
                       pending.records, old(queued), queued, scopes.scopes)
    {
      claim, claimed, id := *, *, *;
      var binding, chosen, at := scopes.Activate(candidates, caller.session, now);
      if !flushed {
        return Silence, claim, claimed, id;
      }
      reply, claim, claimed, id := Deliver(candidates, caller, message, remote, answer, clock, now, unwritable);
    }

    /** Each outcome is sent, or queued when that fails; a queue that fails too ends the loop. */
    method Report(outcomes: seq<R.Terminal>, fates: Fates) returns (sent: seq<R.Payload>)
      modifies this
      ensures var mail := Mailed(outcomes, fates); sent == mail.sent && queued == old(queued) + mail.queued
    {
      var i := 0;
      sent := [];
      while i < |outcomes|
        invariant 0 <= i <= |outcomes|
        invariant var mail, rest := Mailed(outcomes, fates), Mailed(outcomes[i..], fates);
          sent + rest.sent == mail.sent && queued + rest.queued == old(queued) + mail.queued
      {
        assert outcomes[i..][1..] == outcomes[i + 1..];
        var payload := R.InjectionEventPayload(outcomes[i].emitted, outcomes[i].phase);
        if payload.Some? && payload.value.eventId in fates.accepted {
          sent := sent + [payload.value];
        } else {
          var written := QueueInjectionEvent(outcomes[i], fates.unwritable);
          if !written {
            return;
          }
        }
        i := i + 1;
      }
    }

    /**
      A pass ends its records and mails their outcomes up to the first that is lost; with records that their
      claims filled in, one that the server refuses and the queue cannot take.
     */
    ghost predicate PassDone(pass: Pass, files: seq<R.Key>, clock: Clock, fates: Fates, before: R.Directory, id: R.Id,
                             after: R.Directory, sent: seq<R.Payload>, queued: seq<R.Payload>,
                             queued': seq<R.Payload>) {
      var batch := SettleAll(Batch(before, id, []), files, pass, clock);
      var mail := Mailed(batch.outcomes, fates);
      && Listing(files, before) && after == batch.dir && sent == mail.sent && queued' == queued + mail.queued
      && (Complete(before, pass) ==>
            ((forall o :: o in batch.outcomes ==> Reported(o, mail))
             <==> (forall o :: o in batch.outcomes ==> !Stranded(o, fates))))
    }

    /** The hook at the end of a turn: what ended is reported, at once or through the queue. */
    method OnSessionEnd(session: string, success: bool, clock: Clock, fates: Fates)
      returns (ghost files: seq<R.Key>, sent: seq<R.Payload>)
      modifies this, pending
      ensures PassDone(TurnEnd(session, success), files, clock, fates, old(pending.records), old(pending.nextId),
                       pending.records, sent, old(queued), queued)
    {
      var finished;
      finished, files := pending.Finish(session, success, clock);
      sent := Report(finished, fates);
      if Complete(old(pending.records), TurnEnd(session, success)) {
        PassReportsAllIff(old(pending.records), old(pending.nextId), files, TurnEnd(session, success), clock, fates);
      }
    }

    /** Startup: every attempt that was in flight has failed, and is reported. */
    method Register(clock: Clock, fates: Fates) returns (ghost files: seq<R.Key>, sent: seq<R.Payload>)
      modifies this, pending
      ensures PassDone(Restart, files, clock, fates, old(pending.records), old(pending.nextId), pending.records, sent,
                       old(queued), queued)
    {
      var recovered;
      recovered, files := pending.RecoverInFlight(clock);
      sent := Report(recovered, fates);
      if Complete(old(pending.records), Restart) {
        PassReportsAllIff(old(pending.records), old(pending.nextId), files, Restart, clock, fates);
      }
    }
  }
}
