/** What holds in every run of the hand-off protocol. */
module HandoffTheorems {
  import opened Wrappers
  import opened Tokens
  import opened Handoff
  import opened HandoffSteps
  import R = Resume
  import S = Scopes
  import Stores

  lemma Reachable(steps: seq<Step>)
    ensures Inv(Run(INITIAL, steps))
  {
    RunKeeps(INITIAL, steps);
  }

  ghost function LogOf(steps: seq<Step>): seq<Event> {
    Run(INITIAL, steps).history.log
  }

  // ---------------------------------------------------------------- one hand-out, one outcome

  ghost predicate Outcome(e: Event) {
    e.Ended? || e.Dropped?
  }

  lemma {:induction false} EveryEventAllowed(log: seq<Event>, i: nat)
    requires Disciplined(log) && i < |log|
    ensures Allowed(Tally(log[..i]), log[i])
  {
    var last := |log| - 1;
    if i < last {
      EveryEventAllowed(log[..last], i);
      assert log[..last][..i] == log[..i];
    }
  }

  /** The tally is what the log shows. */
  lemma {:induction false} TallyIsLog(log: seq<Event>, a: R.Id)
    ensures a in Tally(log).accepted <==> exists i :: 0 <= i < |log| && log[i].Injected? && log[i].attempt == a
    ensures a in Tally(log).handed <==> exists i :: 0 <= i < |log| && log[i].HandedOff? && log[i].attempt == a
    ensures a in Tally(log).returned <==> exists i :: 0 <= i < |log| && log[i].Returned? && log[i].attempt == a
    ensures a in Tally(log).ended <==> exists i :: 0 <= i < |log| && Outcome(log[i]) && log[i].attempt == a
  {
    if log != [] {
      var last := |log| - 1;
      TallyIsLog(log[..last], a);
      assert forall i :: 0 <= i < last ==> log[..last][i] == log[i];
    }
  }

  /**
    In every interleaving of hooks, ends of turns and restarts: an attempt is handed off only after its
    injection was accepted, at most once, and never after it had an outcome; its context is returned to
    the host only after that and at most once.
   */
  lemma HandedOutOnce(steps: seq<Step>, i: nat, j: nat)
    requires i < |LogOf(steps)| && j < |LogOf(steps)| && LogOf(steps)[i].attempt == LogOf(steps)[j].attempt
    ensures var log := LogOf(steps);
      && (log[i].HandedOff? ==> exists k :: 0 <= k < i && log[k].Injected? && log[k].attempt == log[i].attempt)
      && (log[i].HandedOff? && log[j].HandedOff? ==> i == j)
      && (log[i].HandedOff? && Outcome(log[j]) ==> i < j)
      && (log[i].Returned? ==> exists k :: 0 <= k < i && log[k].HandedOff? && log[k].attempt == log[i].attempt)
      && (log[i].Returned? && log[j].Returned? ==> i == j)
  {
    var log := LogOf(steps);
    Reachable(steps);
    AtPlace(log, i);
    AtPlace(log, j);
  }

  /** What the discipline says of one place in the log, in terms of the earlier ones. */
  lemma AtPlace(log: seq<Event>, i: nat)
    requires Disciplined(log) && i < |log|
    ensures var e := log[i];
      && (e.HandedOff? ==>
            && (exists k :: 0 <= k < i && log[k].Injected? && log[k].attempt == e.attempt)
            && (forall k :: 0 <= k < i && log[k].attempt == e.attempt ==> !log[k].HandedOff? && !Outcome(log[k])))
      && (e.Returned? ==>
            && (exists k :: 0 <= k < i && log[k].HandedOff? && log[k].attempt == e.attempt)
            && (forall k :: 0 <= k < i && log[k].attempt == e.attempt ==> !log[k].Returned?))
      && (Outcome(e) ==> forall k :: 0 <= k < i && log[k].attempt == e.attempt ==> !Outcome(log[k]))
      && (e.Dropped? || (e.Ended? && e.phase == R.Acknowledged && e.console) ==>
            (e.Ended? <==> exists k :: 0 <= k < i && log[k].HandedOff? && log[k].attempt == e.attempt))
  {
    EveryEventAllowed(log, i);
    TallyIsLog(log[..i], log[i].attempt);
    assert forall k :: 0 <= k < i ==> log[..i][k] == log[k];
  }

  /**
    Each attempt has at most one outcome: acknowledged, failed or dropped. A Console attempt is
    acknowledged only after its own hand-off, and dropped only without one.
   */
  lemma OneOutcome(steps: seq<Step>, i: nat, j: nat)
    requires i < |LogOf(steps)| && j < |LogOf(steps)| && LogOf(steps)[i].attempt == LogOf(steps)[j].attempt
    requires Outcome(LogOf(steps)[i])
    ensures var log := LogOf(steps);
      && (Outcome(log[j]) ==> i == j)
      && (log[i].Ended? && log[i].phase == R.Acknowledged && log[i].console ==>
            exists k :: 0 <= k < i && log[k].HandedOff? && log[k].attempt == log[i].attempt)
      && (log[i].Dropped? ==> !log[j].HandedOff?)
  {
    var log := LogOf(steps);
    Reachable(steps);
    AtPlace(log, i);
    AtPlace(log, j);
  }

  /**
    Provenance is fixed within an attempt: all its reports agree on session, turn, workstream, method and
    version, and repeating the injected report repeats it exactly.
   */
  lemma ProvenanceFixed(steps: seq<Step>, i: nat, j: nat)
    requires i < |LogOf(steps)| && j < |LogOf(steps)| && LogOf(steps)[i].attempt == LogOf(steps)[j].attempt
    requires LogOf(steps)[i].Injected? && (LogOf(steps)[j].Injected? || LogOf(steps)[j].Ended?)
    ensures var p, e := LogOf(steps)[i].payload, LogOf(steps)[j];
      && (e.Injected? ==> e.payload == p)
      && (e.Ended? ==>
            && e.report.Some? && e.report.value.phase == e.phase
            && var q := e.report.value;
            && q.attempt == p.attempt && q.version == p.version && q.session == p.session && q.turn == p.turn
            && q.workstream == p.workstream && q.injectionMethod == p.injectionMethod)
  {
    Reachable(steps);
    var w := Run(INITIAL, steps);
    assert EventOk(w.history.log[i], w.claims) && EventOk(w.history.log[j], w.claims);
  }

  /**
    Every end of an attempt is reported: the record that an end of turn, a failure or a restart emits lacks
    nothing.
   */
  lemma EveryOutcomeReported(steps: seq<Step>, i: nat)
    requires i < |LogOf(steps)| && LogOf(steps)[i].Ended?
    ensures LogOf(steps)[i].report.Some? && LogOf(steps)[i].report.value.attempt == LogOf(steps)[i].attempt
  {
    Reachable(steps);
    var w := Run(INITIAL, steps);
    assert EventOk(w.history.log[i], w.claims);
  }

  /** Every claim can be declared: the record that a claim returns lacks nothing either, until its hook is done. */
  lemma EveryClaimDeclared(steps: seq<Step>, h: HookId)
    requires var hooks := Run(INITIAL, steps).hooks; h in hooks && !hooks[h].Ready? && !hooks[h].Done?
    ensures var record := Run(INITIAL, steps).hooks[h].record;
      && R.CompleteClaim(record) && R.InjectionEventPayload(record, R.Injected).Some?
  {
    Reachable(steps);
    HookIsComplete(Run(INITIAL, steps), h);
  }

  lemma HookIsComplete(w: World, h: HookId)
    requires IdsOk(w) && h in w.hooks && HookOk(h, w.hooks[h], w) && !w.hooks[h].Ready? && !w.hooks[h].Done?
    ensures R.CompleteClaim(w.hooks[h].record) && R.InjectionEventPayload(w.hooks[h].record, R.Injected).Some?
  {
    assert R.CompleteClaim(w.claims[w.hooks[h].record.attempt.value]);
  }

  /** And so is every record in flight, in the store. */
  lemma InFlightIsComplete(steps: seq<Step>, k: R.Key)
    requires k in Run(INITIAL, steps).pending && Run(INITIAL, steps).pending[k].status == R.InFlight
    ensures R.CompleteClaim(Run(INITIAL, steps).pending[k])
  {
    Reachable(steps);
    var w := Run(INITIAL, steps);
    assert RecordOk(k, w.pending[k], w) && R.CompleteClaim(w.claims[w.pending[k].attempt.value]);
  }

  // ---------------------------------------------------------------- absorbing and frozen records

  /** Delivered is absorbing for its Resume and version: no later step, cancellation included, changes the record. */
  lemma {:induction false} DeliveredAbsorbing(w: World, steps: seq<Step>, k: R.Key)
    requires Inv(w) && k in w.pending && w.pending[k].status == R.Delivered
    ensures k in Run(w, steps).pending && Run(w, steps).pending[k] == w.pending[k]
    decreases |steps|
  {
    if steps != [] {
      assert RecordOk(k, w.pending[k], w);
      DeliveredStays(w, steps[0], k);
      StepKeeps(w, steps[0]);
      DeliveredAbsorbing(Next(w, steps[0]), steps[1..], k);
    }
  }

  lemma DeliveredStays(w: World, s: Step, k: R.Key)
    requires k in w.pending && w.pending[k].status == R.Delivered && !R.HandoffMissing(w.pending[k])
    ensures k in Next(w, s).pending && Next(w, s).pending[k] == w.pending[k]
  {
    if !s.Activate? && !s.Queue? && !s.StageManual? && !s.EndTurn? && !s.Recover? && !s.Spawn? && s.hook in w.hooks {
      HookLeavesDelivered(w, s, s.hook, w.hooks[s.hook], k);
    }
  }

  lemma HookLeavesDelivered(w: World, s: Step, h: HookId, hook: Hook, k: R.Key)
    requires k in w.pending && w.pending[k].status == R.Delivered && !R.HandoffMissing(w.pending[k])
    ensures var file := HookEffect(w, s, h, hook).file; file.Some? && file.value.0 == k ==> file.value.1 == w.pending[k]
  {
  }

  /** The steps that may move a handed-off Console record: the end of its session's turn, and a restart. */
  predicate Thaws(s: Step, k: R.Key, session: Option<string>) {
    (s.EndTurn? && s.file == k && session == Some(s.session)) || (s.Recover? && s.file == k)
  }

  /**
    Between its hand-off and the end of its turn a Console record is frozen: no mix of queueing, claiming,
    repeated marks, cancellations and late failures changes it.
   */
  lemma {:induction false} HandedOffIsFrozen(w: World, steps: seq<Step>, k: R.Key)
    requires k in w.pending && R.Frozen(w.pending[k])
    requires forall s :: s in steps ==> !Thaws(s, k, w.pending[k].session)
    ensures k in Run(w, steps).pending && Run(w, steps).pending[k] == w.pending[k]
    decreases |steps|
  {
    if steps != [] {
      FrozenStays(w, steps[0], k);
      HandedOffIsFrozen(Next(w, steps[0]), steps[1..], k);
    }
  }

  lemma FrozenStays(w: World, s: Step, k: R.Key)
    requires k in w.pending && R.Frozen(w.pending[k]) && !Thaws(s, k, w.pending[k].session)
    ensures k in Next(w, s).pending && Next(w, s).pending[k] == w.pending[k]
  {
    if !s.Activate? && !s.Queue? && !s.StageManual? && !s.EndTurn? && !s.Recover? && !s.Spawn? && s.hook in w.hooks {
      HookLeavesFrozen(w, s, s.hook, w.hooks[s.hook], k);
    }
  }

  lemma HookLeavesFrozen(w: World, s: Step, h: HookId, hook: Hook, k: R.Key)
    requires k in w.pending && R.Frozen(w.pending[k])
    ensures var file := HookEffect(w, s, h, hook).file; file.Some? && file.value.0 == k ==> file.value.1 == w.pending[k]
  {
  }

  // ---------------------------------------------------------------- what the discipline does not promise

  /** The end of the session's turn, then the return: what may happen right after a hand-off is committed. */
  function LateReturn(h: HookId, file: R.Key, session: string, now: int): seq<Step> {
    [EndTurn(file, session, true, now), Return(h)]
  }

  /**
    The return to the host itself may come after an outcome: whenever a hook has committed its hand-off
    and has not returned yet, the turn can be ended first. The two events then stand in this order.
   */
  lemma ReturnMayFollowOutcome(w: World, h: HookId, file: R.Key, session: string, now: int)
    requires h in w.hooks && w.hooks[h].Marked? && Holds(w, file, w.hooks[h].record)
    requires w.pending[file].session == Some(session)
    ensures var log := Run(w, LateReturn(h, file, session, now)).history.log;
      && |log| == |w.history.log| + 2
      && log[|log| - 2].Ended? && log[|log| - 1].Returned? && log[|log| - 2].attempt == log[|log| - 1].attempt
  {
    var steps := LateReturn(h, file, session, now);
    var w1 := Next(w, steps[0]);
    var w2 := Next(w1, steps[1]);
    assert steps[1..] == [steps[1]] && steps[1..][1..] == [];
    assert Run(w1, steps[1..]) == w2;
  }

  /** A Console Resume that is queued for a session, claimed by its next turn, accepted, prepared and handed off. */
  function HandOffRun(packet: R.Packet, caller: R.Caller, workstream: string): seq<Step> {
    [Queue(packet, {SessionToken(caller.session)}, workstream, true, 0),
     Spawn(0, {SessionToken(caller.session)}, caller),
     Claim(0, packet.key, workstream, 1),
     Submit(0, true, false),
     Prepare(0, packet.key, 2, 2),
     Mark(0, packet.key, 3)]
  }

  /**
    Such a hook is reachable, with its scope committed and its record frozen, so the order of the two events
    is real.
   */
  lemma HandedOffIsReachable(packet: R.Packet, caller: R.Caller, workstream: string)
    requires packet.key.version >= 1 && packet.text.Some? && packet.project.Some? && packet.task.Some?
    requires caller.session != ""
    ensures var w := Run(INITIAL, HandOffRun(packet, caller, workstream));
      && 0 in w.hooks && w.hooks[0].Marked? && Holds(w, packet.key, w.hooks[0].record)
      && w.pending[packet.key].session == Some(caller.session) && R.Frozen(w.pending[packet.key])
      && w.pending[packet.key].scopeCommit.Some? && S.PreparedKey(w.pending[packet.key].scopeCommit.value) in w.scopes
  {
    var k, targets := packet.key, {SessionToken(caller.session)};
    QueueShown(INITIAL, packet, targets, workstream);
    var w1 := Next(INITIAL, Queue(packet, targets, workstream, true, 0));
    SpawnShown(w1, 0, targets, caller);
    var w2 := Next(w1, Spawn(0, targets, caller));
    ClaimShown(w2, 0, w2.hooks[0], k, workstream);
    var w3 := Next(w2, Claim(0, k, workstream, 1));
    SubmitShown(w3, 0, w3.hooks[0].record);
    var w4 := Next(w3, Submit(0, true, false));
    PrepareShown(w4, 0, w4.hooks[0].record, k);
    var w5 := Next(w4, Prepare(0, k, 2, 2));
    MarkShown(w5, 0, w5.hooks[0].record, w5.hooks[0].commit, k);
    RunOfSix(INITIAL, HandOffRun(packet, caller, workstream));
  }

  lemma RunOfSix(w: World, steps: seq<Step>)
    requires |steps| == 6
    ensures Run(w, steps) == Next(Next(Next(Next(Next(Next(w, steps[0]), steps[1]), steps[2]), steps[3]), steps[4]),
                                  steps[5])
  {
    var w1 := Next(w, steps[0]);
    var w2 := Next(w1, steps[1]);
    var w3 := Next(w2, steps[2]);
    var w4 := Next(w3, steps[3]);
    var w5 := Next(w4, steps[4]);
    RunOf(w, steps, 0);
    RunOf(w1, steps, 1);
    RunOf(w2, steps, 2);
    RunOf(w3, steps, 3);
    RunOf(w4, steps, 4);
    RunOf(w5, steps, 5);
    assert steps[0..] == steps && steps[6..] == [];
  }

  lemma QueueShown(w: World, packet: R.Packet, targets: set<Token>, workstream: string)
    requires packet.key.version >= 1 && packet.text.Some? && packet.project.Some? && packet.task.Some?
    requires targets != {} && packet.key !in w.pending
    ensures var w' := Next(w, Queue(packet, targets, workstream, true, 0));
      && w'.hooks == w.hooks && w'.scopes == w.scopes && packet.key in w'.pending
      && w'.pending[packet.key] == R.FreshRecord(packet, packet.text.value, targets, workstream, true, None, 0,
                                                 w.nextId)
  {
  }

  lemma SpawnShown(w: World, h: HookId, candidates: set<Token>, caller: R.Caller)
    requires h !in w.hooks
    ensures var w' := Next(w, Spawn(h, candidates, caller));
      h in w'.hooks && w'.hooks[h] == Ready(candidates, caller) && w'.pending == w.pending && w'.scopes == w.scopes
  {
  }

  lemma ClaimShown(w: World, h: HookId, hook: Hook, k: R.Key, workstream: string)
    requires h in w.hooks && w.hooks[h] == hook && hook.Ready? && k in w.pending && w.pending[k].status == R.Pending
    requires !R.Expired(w.pending[k], 1) && w.pending[k].targets == hook.candidates && hook.candidates != {}
    ensures var w' := Next(w, Claim(h, k, workstream, 1));
      && h in w'.hooks && w'.hooks[h].Claimed? && k in w'.pending && w'.pending[k] == w'.hooks[h].record
      && w'.pending[k] == R.Claimed(w.pending[k], hook.caller, workstream, 1, w.nextId) && w'.scopes == w.scopes
  {
    assert hook.candidates * hook.candidates == hook.candidates;
  }

  lemma SubmitShown(w: World, h: HookId, record: R.Record)
    requires h in w.hooks && w.hooks[h] == Claimed(record) && R.CompleteClaim(record) && record.contextReturnedAt.None?
    ensures var w' := Next(w, Submit(h, true, false));
      h in w'.hooks && w'.hooks[h] == Accepted(record) && w'.pending == w.pending && w'.scopes == w.scopes
  {
  }

  lemma PrepareShown(w: World, h: HookId, record: R.Record, k: R.Key)
    requires h in w.hooks && w.hooks[h] == Accepted(record) && record.console.Some? && record.attempt.Some?
    requires w.scopes == map[]
    requires k in w.pending && w.pending[k] == record && record.status == R.InFlight && record.contextReturnedAt.None?
    requires record.session.Some? && record.session.value != ""
    requires record.targets == {SessionToken(record.session.value)}
    ensures var w' := Next(w, Prepare(h, k, 2, 2));
      && h in w'.hooks && w'.hooks[h].Prepared? && w'.hooks[h].record == record && w'.pending == w.pending
      && S.PreparedKey(w'.hooks[h].commit) in w'.scopes
  {
    var commit := R.CommitOf(record, record.attempt.value, 2);
    assert ScopeTokens("", "", "", record.session.value) == record.targets;
    assert Effective(w) == map[];
    assert ExactDestination(record, commit) && S.IsNextActivation(Effective(w), 2, 2);
  }

  lemma MarkShown(w: World, h: HookId, record: R.Record, commit: R.Commit, k: R.Key)
    requires h in w.hooks && w.hooks[h] == Prepared(record, commit) && record.attempt.Some?
    requires k in w.pending && w.pending[k] == record && record.status == R.InFlight && record.contextReturnedAt.None?
    ensures var w' := Next(w, Mark(h, k, 3));
      && h in w'.hooks && w'.hooks[h] == Marked(record) && Holds(w', k, record) && w'.scopes == w.scopes
      && w'.pending[k] == R.HandedOff(record, 3, Some(commit))
  {
  }

  lemma RunOf(w: World, steps: seq<Step>, i: nat)
    requires i < |steps|
    ensures Run(w, steps[i..]) == Run(Next(w, steps[i]), steps[i + 1..])
  {
    assert steps[i..][1..] == steps[i + 1..];
  }

  /** An outcome that comes before the return always fell after the committed hand-off. */
  lemma OutcomeOnlyInTheWindow(steps: seq<Step>, i: nat, j: nat)
    requires i < j < |LogOf(steps)| && Outcome(LogOf(steps)[i]) && LogOf(steps)[j].Returned?
    requires LogOf(steps)[i].attempt == LogOf(steps)[j].attempt
    ensures exists k :: 0 <= k < i && LogOf(steps)[k].HandedOff? && LogOf(steps)[k].attempt == LogOf(steps)[i].attempt
  {
    var log := LogOf(steps);
    HandedOutOnce(steps, j, j);
    var k :| 0 <= k < j && log[k].HandedOff? && log[k].attempt == log[j].attempt;
    HandedOutOnce(steps, k, i);
  }

  // ---------------------------------------------------------------- the store's passes are runs

  /** The single endings that a pass of the store amounts to. */
  function StepsOf(files: seq<R.Key>, pass: Stores.Pass, clock: Stores.Clock): (steps: seq<Step>)
    ensures |steps| == |files|
  {
    if files == [] then []
    else
      [match pass
       case TurnEnd(session, success) => EndTurn(files[0], session, success, Stores.At(clock, files[0]))
       case Restart => Recover(files[0], Stores.At(clock, files[0]))] + StepsOf(files[1..], pass, clock)
  }

  /** finish and recover_in_flight, as the store runs them, are runs of single endings. */
  lemma {:induction false} PassIsRun(w: World, files: seq<R.Key>, pass: Stores.Pass, clock: Stores.Clock,
                                     emitted: seq<R.Terminal>)
    ensures var w' := Run(w, StepsOf(files, pass, clock));
      var batch := Stores.SettleAll(Stores.Batch(w.pending, w.nextId, emitted), files, pass, clock);
      w'.pending == batch.dir && w'.nextId == batch.nextId && w'.scopes == w.scopes && w'.hooks == w.hooks
    decreases |files|
  {
    if files != [] {
      var steps := StepsOf(files, pass, clock);
      var batch := Stores.Batch(w.pending, w.nextId, emitted);
      var next := Stores.SettleOne(batch, files[0], pass, Stores.At(clock, files[0]));
      var w' := Next(w, steps[0]);
      assert w'.pending == next.dir && w'.nextId == next.nextId;
      assert steps[1..] == StepsOf(files[1..], pass, clock);
      PassIsRun(w', files[1..], pass, clock, next.outcomes);
    }
  }
}
