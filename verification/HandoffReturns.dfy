/** No claimed attempt is lost: it ends, or its record still holds it. What that says of the return to the host. */
module HandoffReturns {
  import opened Wrappers
  import opened Handoff
  import opened HandoffSteps
  import opened HandoffTheorems
  import R = Resume

  /** Every claimed attempt has ended, or is the attempt of the record that minted it. */
  ghost predicate NoneLost(w: World) {
    forall a :: a in w.claims ==> a in w.history.ended || Current(w, a)
  }

  predicate Current(w: World, a: R.Id) {
    a in w.owner && w.owner[a] in w.pending && w.pending[w.owner[a]].attempt == Some(a)
  }

  /** A write keeps the attempt of the record it replaces, or that attempt has ended or was not claimed. */
  ghost predicate KeepsAttempt(w: World, c: Change) {
    && (c.file.Some? && c.file.value.0 in w.pending ==>
          var a := w.pending[c.file.value.0].attempt;
          a == c.file.value.1.attempt || a.None? || a.value !in w.claims || a.value in Apply(w, c).history.ended)
    && (c.claim.Some? ==> c.file.Some? && c.file.value.1.attempt == c.claim.value.attempt && c.claim.value.attempt.Some?
                          && c.claim.value.key == c.file.value.0)
  }

  lemma HookKeepsAttempt(w: World, s: Step, h: HookId, hook: Hook)
    requires RecordsOk(w)
    ensures KeepsAttempt(w, HookEffect(w, s, h, hook))
  {
    if s.Claim? && hook.Ready? && s.file in w.pending {
      assert RecordOk(s.file, w.pending[s.file], w);
      ClaimKeepsAttempt(w, h, hook, s.file, s.workstream, s.now);
    } else if s.Mark? || s.Cancel? || s.Fail? {
      LaterKeepsAttempt(w, s, h, hook);
    }
  }

  lemma ClaimKeepsAttempt(w: World, h: HookId, hook: Hook, file: R.Key, workstream: string, now: int)
    requires hook.Ready? && file in w.pending && RecordOk(file, w.pending[file], w)
    ensures KeepsAttempt(w, DoClaim(w, h, hook, file, workstream, now))
  {
  }

  lemma LaterKeepsAttempt(w: World, s: Step, h: HookId, hook: Hook)
    requires s.Mark? || s.Cancel? || s.Fail?
    ensures KeepsAttempt(w, HookEffect(w, s, h, hook))
  {
  }

  lemma StepKeepsAttempt(w: World, s: Step)
    requires RecordsOk(w) && !s.Activate?
    ensures KeepsAttempt(w, Effect(w, s))
  {
    if s.Queue? {
      assert s.packet.key in w.pending ==> RecordOk(s.packet.key, w.pending[s.packet.key], w);
    } else if !s.StageManual? && !s.EndTurn? && !s.Recover? && !s.Spawn? && s.hook in w.hooks {
      HookKeepsAttempt(w, s, s.hook, w.hooks[s.hook]);
    }
  }

  lemma ApplyKeeps(w: World, c: Change)
    requires IdsOk(w) && NoneLost(w) && KeepsAttempt(w, c) && (c.mint.Some? ==> w.nextId <= c.mint.value.0)
    requires c.claim.Some? ==>
      Attempt(c.claim.value) in w.owner && w.owner[Attempt(c.claim.value)] == c.claim.value.key && c.mint.None?
    ensures NoneLost(Apply(w, c))
  {
  }

  lemma StepKeepsAll(w: World, s: Step)
    requires Inv(w) && NoneLost(w)
    ensures NoneLost(Next(w, s))
  {
    if !s.Activate? {
      StepKeepsAttempt(w, s);
      SoundEffect(w, s);
      ApplyKeeps(w, Effect(w, s));
    }
  }

  lemma {:induction false} RunKeepsAll(w: World, steps: seq<Step>)
    requires Inv(w) && NoneLost(w)
    ensures NoneLost(Run(w, steps))
    decreases |steps|
  {
    if steps != [] {
      StepKeeps(w, steps[0]);
      StepKeepsAll(w, steps[0]);
      RunKeepsAll(Next(w, steps[0]), steps[1..]);
    }
  }

  /** No claimed attempt vanishes: in every run it has an outcome, or its record is still in flight under it. */
  lemma NoAttemptVanishes(steps: seq<Step>, a: R.Id)
    requires a in Run(INITIAL, steps).claims
    ensures var w := Run(INITIAL, steps);
      a in w.history.ended <==> !(a in w.owner && w.owner[a] in w.pending && R.HoldsAttempt(w.pending[w.owner[a]], a))
  {
    RunKeeps(INITIAL, steps);
    RunKeepsAll(INITIAL, steps);
    var w := Run(INITIAL, steps);
    if Current(w, a) {
      assert RecordOk(w.owner[a], w.pending[w.owner[a]], w);
    }
  }

  /**
    When a hook returns its context to the host, exactly: it comes before every outcome of its attempt if
    and only if the record is still in flight under that attempt, which the store can tell right before.
   */
  lemma ReturnBeforeOutcomeIff(steps: seq<Step>, h: HookId)
    requires h in Run(INITIAL, steps).hooks && Run(INITIAL, steps).hooks[h].Marked?
    ensures var w := Run(INITIAL, steps);
      var record := w.hooks[h].record;
      var a, log := Attempt(record), Next(w, Return(h)).history.log;
      && log == w.history.log + [Returned(a)] && a in w.owner
      && ((forall i :: 0 <= i < |log| && log[i].attempt == a ==> !Outcome(log[i])) <==> Holds(w, w.owner[a], record))
  {
    RunKeeps(INITIAL, steps);
    var w := Run(INITIAL, steps);
    ReturnStep(w, h);
    NoneEnded(w.history.log, Attempt(w.hooks[h].record));
    NoAttemptVanishes(steps, Attempt(w.hooks[h].record));
  }

  lemma ReturnStep(w: World, h: HookId)
    requires IdsOk(w) && HooksOk(w) && h in w.hooks && w.hooks[h].Marked?
    ensures var a := Attempt(w.hooks[h].record);
      && w.hooks[h].record.attempt == Some(a) && a in w.claims && a in w.owner
      && Next(w, Return(h)).history.log == w.history.log + [Returned(a)]
  {
    assert HookOk(h, w.hooks[h], w);
  }

  lemma NoneEnded(log: seq<Event>, a: R.Id)
    ensures var after := log + [Returned(a)];
      (forall i :: 0 <= i < |after| && after[i].attempt == a ==> !Outcome(after[i])) <==> a !in Tally(log).ended
  {
    TallyIsLog(log, a);
    var after := log + [Returned(a)];
    assert forall i :: 0 <= i < |log| ==> after[i] == log[i];
  }
}
