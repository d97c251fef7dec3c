/** Each step of the hand-off protocol makes a sound change. */
module HandoffSteps {
  import opened Wrappers
  import opened Tokens
  import opened Handoff
  import opened HandoffInvariant
  import R = Resume
  import S = Scopes

  /** A record at the start of an attempt: queued, or rotated after a failure. */
  ghost predicate FreshStart(r: R.Record, k: R.Key, id: R.Id, commit: Option<R.Commit>) {
    && r.key == k && r.status == R.Pending && r.attempt == Some(id) && r.scopeCommit == commit
    && r.injectionEvent.Some? && r.injectionMethod.Some? && r.workstream.Some?
    && r.contextReturnedAt.None? && r.acknowledgedEvent.None? && r.failedEvent.None?
  }

  /** What a terminal outcome leaves of an in-flight record, and what it reports. */
  ghost predicate Terminates(r: R.Record, outcome: R.Terminal, id: R.Id) {
    && var payload := R.InjectionEventPayload(outcome.emitted, outcome.phase);
    && payload.Some? && FromClaim(payload.value, r)
    && outcome.stored.scopeCommit == r.scopeCommit
    && match outcome.phase
       case Failed => FreshStart(outcome.stored, r.key, id + 1, r.scopeCommit)
       case Acknowledged =>
         && outcome.stored.status == R.Delivered && Essence(outcome.stored) == Essence(r)
         && outcome.stored.contextReturnedAt == r.contextReturnedAt && !R.HandoffMissing(r)
       case Injected => false
  }

  lemma EndsTerminate(r: R.Record, success: bool, code: string, now: int, id: R.Id)
    requires R.CompleteClaim(r)
    ensures Terminates(r, R.Finished(r, success, now, id), id)
    ensures Terminates(r, R.Aborted(r, code, now, id), id)
  {
  }

  lemma QueueStarts(w: World, packet: R.Packet, targets: set<Token>, workstream: string, console: bool, now: int)
    ensures var c := DoQueue(w, packet, targets, workstream, console, now);
      c == NOTHING ||
      (exists r :: c == NOTHING.(file := Some((packet.key, r)), mint := Some((w.nextId, packet.key)), spent := 2) &&
                   FreshStart(r, packet.key, w.nextId,
                              if packet.key in w.pending then w.pending[packet.key].scopeCommit else None))
  {
  }

  lemma SoundQueue(w: World, k: R.Key, r: R.Record)
    requires IdsOk(w) && CommitsOk(w)
    requires FreshStart(r, k, w.nextId, if k in w.pending then w.pending[k].scopeCommit else None)
    ensures Sound(w, NOTHING.(file := Some((k, r)), mint := Some((w.nextId, k)), spent := 2))
  {
    assert k in w.pending ==> CommitOk(k, w.pending[k], w);
  }

  lemma SoundClaimStep(w: World, h: HookId, hook: Hook, file: R.Key, workstream: string, now: int)
    requires IdsOk(w) && (file in w.pending ==> RecordOk(file, w.pending[file], w)) && hook.Ready?
    ensures Sound(w, DoClaim(w, h, hook, file, workstream, now))
  {
  }

  lemma SoundSubmit(w: World, h: HookId, record: R.Record, accepted: bool, permanent: bool)
    requires HookOk(h, Claimed(record), w)
    ensures Sound(w, DoSubmit(h, record, accepted, permanent))
  {
  }

  lemma SoundPrepare(w: World, h: HookId, record: R.Record, file: R.Key, now: int, at: int)
    requires IdsOk(w) && (file in w.pending ==> RecordOk(file, w.pending[file], w)) && HookOk(h, Accepted(record), w)
    requires record.console.Some?
    ensures Sound(w, DoPrepare(w, h, record, file, now, at))
  {
  }

  lemma SoundMark(w: World, h: HookId, hook: Hook, file: R.Key, now: int)
    requires IdsOk(w) && (file in w.pending ==> RecordOk(file, w.pending[file], w)) && HookOk(h, hook, w)
    requires hook.Accepted? && hook.record.console.None?
    ensures Sound(w, DoMark(w, h, hook.record, file, now, None))
  {
  }

  lemma SoundCommitting(w: World, h: HookId, hook: Hook, file: R.Key, now: int)
    requires IdsOk(w) && (file in w.pending ==> RecordOk(file, w.pending[file], w)) && HookOk(h, hook, w)
    requires hook.Prepared?
    ensures Sound(w, DoMark(w, h, hook.record, file, now, Some(hook.commit)))
  {
  }

  lemma SoundCancel(w: World, h: HookId, record: R.Record, file: R.Key, code: string)
    requires IdsOk(w) && (file in w.pending ==> RecordOk(file, w.pending[file], w)) && HookOk(h, Erred(record, true), w)
    ensures Sound(w, DoCancel(w, h, record, file, code))
  {
  }

  lemma SettleRecord(w: World, file: R.Key, outcome: R.Terminal, hook: Option<(HookId, Hook)>)
    requires IdsOk(w) && file in w.pending && RecordOk(file, w.pending[file], w) && CommitOk(file, w.pending[file], w)
    requires w.pending[file].status == R.InFlight && Terminates(w.pending[file], outcome, w.nextId)
    ensures SoundRecord(w, Settle(w, file, outcome).(hook := hook))
  {
  }

  lemma SoundSettle(w: World, file: R.Key, outcome: R.Terminal, hook: Option<(HookId, Hook)>)
    requires IdsOk(w) && CommitsOk(w) && file in w.pending && RecordOk(file, w.pending[file], w)
    requires w.pending[file].status == R.InFlight && Terminates(w.pending[file], outcome, w.nextId)
    requires hook.Some? ==> hook.value.1.Done?
    ensures Sound(w, Settle(w, file, outcome).(hook := hook))
  {
    assert CommitOk(file, w.pending[file], w);
    SettleRecord(w, file, outcome, hook);
  }

  lemma SoundStage(w: World, packet: R.Packet, targets: set<Token>, workstream: string, now: int)
    ensures Sound(w, DoStage(w, packet, targets, workstream, now))
  {
  }

  lemma SoundMove(w: World, h: HookId, hook: Hook)
    requires HookOk(h, hook, w)
    ensures Sound(w, Move(h, hook)) && Sound(w, NOTHING)
  {
  }

  lemma SoundReturn(w: World, h: HookId, record: R.Record)
    requires HookOk(h, Marked(record), w)
    ensures Sound(w, Move(h, Done).(event := Some(Returned(Attempt(record)))))
  {
  }

  lemma SoundAccepted(w: World, s: Step, h: HookId, hook: Hook)
    requires IdsOk(w) && RecordsOk(w) && HookOk(h, hook, w) && hook.Accepted?
    ensures Sound(w, HookEffect(w, s, h, hook))
  {
    if s.Die? {
      SoundMove(w, h, Done);
    } else if s.Prepare? && hook.record.console.Some? {
      SoundPrepare(w, h, hook.record, s.file, s.now, s.at);
    } else if s.Mark? && hook.record.console.None? {
      SoundMark(w, h, hook, s.file, s.now);
    } else {
      SoundMove(w, h, Erred(hook.record, false));
    }
  }

  lemma SoundPrepared(w: World, s: Step, h: HookId, hook: Hook)
    requires IdsOk(w) && RecordsOk(w) && HookOk(h, hook, w) && hook.Prepared?
    ensures Sound(w, HookEffect(w, s, h, hook))
  {
    if s.Die? {
      SoundMove(w, h, Done);
    } else if s.Mark? {
      SoundCommitting(w, h, hook, s.file, s.now);
    } else {
      SoundMove(w, h, Erred(hook.record, false));
    }
  }

  lemma SoundErred(w: World, s: Step, h: HookId, hook: Hook)
    requires IdsOk(w) && RecordsOk(w) && CommitsOk(w) && HookOk(h, hook, w) && hook.Erred?
    ensures Sound(w, HookEffect(w, s, h, hook))
  {
    if s.Cancel? && hook.permanent && hook.record.console.Some? {
      SoundCancel(w, h, hook.record, s.file, s.code);
    } else if s.Fail? && !(hook.permanent && hook.record.console.Some?) {
      SoundFail(w, h, hook.record, s.file, s.code, s.now);
    } else {
      SoundMove(w, h, Done);
    }
  }

  lemma SoundHookStep(w: World, s: Step, h: HookId, hook: Hook)
    requires IdsOk(w) && RecordsOk(w) && CommitsOk(w) && HookOk(h, hook, w)
    ensures Sound(w, HookEffect(w, s, h, hook))
  {
    if hook.Accepted? {
      SoundAccepted(w, s, h, hook);
    } else if hook.Prepared? {
      SoundPrepared(w, s, h, hook);
    } else if hook.Erred? {
      SoundErred(w, s, h, hook);
    } else {
      SoundAround(w, s, h, hook);
    }
  }

  /** Before the declaration is accepted, and after the hand-off. */
  lemma SoundAround(w: World, s: Step, h: HookId, hook: Hook)
    requires IdsOk(w) && RecordsOk(w) && HookOk(h, hook, w)
    requires (hook.Ready? || hook.Claimed? || hook.Marked? || hook.Done?)
    ensures Sound(w, HookEffect(w, s, h, hook))
  {
    if s.Claim? && hook.Ready? {
      SoundClaimStep(w, h, hook, s.file, s.workstream, s.now);
    } else if s.Submit? && hook.Claimed? {
      SoundSubmit(w, h, hook.record, s.accepted, s.permanent);
    } else if s.Return? && hook.Marked? {
      SoundReturn(w, h, hook.record);
    } else {
      SoundMove(w, h, Done);
    }
  }

  lemma SoundFail(w: World, h: HookId, record: R.Record, file: R.Key, code: string, now: int)
    requires IdsOk(w) && RecordsOk(w) && CommitsOk(w)
    ensures Sound(w, DoFail(w, h, record, file, code, now))
  {
    if Holds(w, file, record) && !R.Frozen(w.pending[file]) {
      assert RecordOk(file, w.pending[file], w);
      SoundEnd(w, file, R.Aborted(w.pending[file], code, now, w.nextId), true, code, now, Some((h, Done)));
    }
  }

  lemma SoundEnd(w: World, file: R.Key, outcome: R.Terminal, success: bool, code: string, now: int,
                 hook: Option<(HookId, Hook)>)
    requires IdsOk(w) && CommitsOk(w) && file in w.pending && RecordOk(file, w.pending[file], w)
    requires w.pending[file].status == R.InFlight && (hook.Some? ==> hook.value.1.Done?)
    requires outcome == R.Finished(w.pending[file], success, now, w.nextId)
          || outcome == R.Aborted(w.pending[file], code, now, w.nextId)
    ensures Sound(w, Settle(w, file, outcome).(hook := hook))
  {
    EndsTerminate(w.pending[file], success, code, now, w.nextId);
    SoundSettle(w, file, outcome, hook);
  }

  lemma SoundPass(w: World, s: Step)
    requires IdsOk(w) && RecordsOk(w) && CommitsOk(w) && (s.EndTurn? || s.Recover?)
    ensures Sound(w, Effect(w, s))
  {
    if s.file in w.pending {
      assert RecordOk(s.file, w.pending[s.file], w);
      if s.EndTurn? && R.OwnClaim(w.pending[s.file], s.session) {
        SoundEnd(w, s.file, R.Finished(w.pending[s.file], s.success, s.now, w.nextId), s.success, "", s.now, None);
      } else if s.Recover? && w.pending[s.file].status == R.InFlight {
        SoundEnd(w, s.file, R.Aborted(w.pending[s.file], "adapter_restarted", s.now, w.nextId), true,
                 "adapter_restarted", s.now, None);
      } else {
        SoundMove(w, 0, Done);
      }
    } else {
      SoundMove(w, 0, Done);
    }
  }

  lemma SoundEffect(w: World, s: Step)
    requires Inv(w) && !s.Activate?
    ensures Sound(w, Effect(w, s))
  {
    if s.EndTurn? || s.Recover? {
      SoundPass(w, s);
    } else if s.Queue? {
      QueueStarts(w, s.packet, s.targets, s.workstream, s.console, s.now);
      if Effect(w, s) == NOTHING {
        SoundMove(w, 0, Done);
      } else {
        SoundQueue(w, s.packet.key, Effect(w, s).file.value.1);
      }
    } else if s.StageManual? {
      SoundStage(w, s.packet, TokensOf(s.conversation), s.workstream, s.now);
    } else if s.Spawn? {
      SoundMove(w, s.hook, Ready(s.candidates, s.caller));
    } else if s.hook in w.hooks {
      SoundHookStep(w, s, s.hook, w.hooks[s.hook]);
    } else {
      SoundMove(w, 0, Done);
    }
  }

  lemma ActivateKeepsScopes(w: World, k: S.ScopeKey, candidates: set<Token>, session: string, at: int)
    requires CommitsOk(w) && ScopesOk(w) && k in w.scopes && w.scopes[k].status == S.Waiting
    ensures ScopesOk(w.(scopes := S.Activate(w.scopes, w.pending, k, candidates, session, at)))
  {
    var w' := w.(scopes := S.Activate(w.scopes, w.pending, k, candidates, session, at));
    S.ActivateKeepsValid(w.scopes, w.pending, k, candidates, session, at);
    forall j | j in w'.scopes
      ensures ScopeOk(j, w'.scopes[j], w')
    {
      assert S.WellNamed(j, w.scopes[j]) && ScopeOk(j, w.scopes[j], w);
      if j.attempt.Some? {
        assert S.WellNamed(k, w.scopes[k]);
        YieldedScope(w, j, w.scopes[j], w.scopes[k], candidates);
      }
    }
  }

  /** A prepared file that gives way was in force, so its attempt was handed off. */
  lemma YieldedScope(w: World, j: S.ScopeKey, scope: S.Scope, chosen: S.Scope, candidates: set<Token>)
    requires CommitsOk(w) && S.WellNamed(j, scope) && ScopeOk(j, scope, w) && j.attempt.Some?
    ensures ScopeOk(j, S.Yielded(scope, w.pending, chosen, candidates), w)
  {
    assert j.resume in w.pending ==> CommitOk(j.resume, w.pending[j.resume], w);
  }

  lemma SameScopeFiles(w: World, w': World)
    requires w' == w.(scopes := w'.scopes) && w'.scopes.Keys == w.scopes.Keys
    ensures HooksOk(w) ==> HooksOk(w')
    ensures CommitsOk(w) ==> CommitsOk(w')
    ensures RecordsOk(w) ==> RecordsOk(w')
  {
    if HooksOk(w) {
      assert forall h :: h in w.hooks ==> HookOk(h, w.hooks[h], w) && HookOk(h, w.hooks[h], w');
    }
    if CommitsOk(w) {
      assert forall k :: k in w.pending ==> CommitOk(k, w.pending[k], w) && CommitOk(k, w.pending[k], w');
    }
    if RecordsOk(w) {
      assert forall k :: k in w.pending ==> RecordOk(k, w.pending[k], w) && RecordOk(k, w.pending[k], w');
    }
  }

  lemma ActivateKeeps(w: World, k: S.ScopeKey, candidates: set<Token>, session: string, at: int)
    requires Inv(w) && k in w.scopes && w.scopes[k].status == S.Waiting
    ensures Inv(w.(scopes := S.Activate(w.scopes, w.pending, k, candidates, session, at)))
  {
    var w' := w.(scopes := S.Activate(w.scopes, w.pending, k, candidates, session, at));
    ActivateKeepsScopes(w, k, candidates, session, at);
    SameScopeFiles(w, w');
  }

  lemma StepKeeps(w: World, s: Step)
    requires Inv(w)
    ensures Inv(Next(w, s))
  {
    if s.Activate? {
      if S.Chosen(w.scopes, s.candidates, s.now, s.chosen) && S.IsNextActivation(Effective(w), s.now, s.at) {
        ActivateKeeps(w, s.chosen, s.candidates, s.session, s.at);
      }
    } else {
      SoundEffect(w, s);
      SoundKeeps(w, Effect(w, s));
    }
  }

  lemma {:induction false} RunKeeps(w: World, steps: seq<Step>)
    requires Inv(w)
    ensures Inv(Run(w, steps))
    decreases |steps|
  {
    if steps != [] {
      StepKeeps(w, steps[0]);
      RunKeeps(Next(w, steps[0]), steps[1..]);
    }
  }
}
