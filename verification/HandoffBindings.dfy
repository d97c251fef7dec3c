/**
  Scope hand-off is crash-atomic: of its two writes the first changes nothing that resolve can see, and
  the second is the whole switch.
 */
module HandoffBindings {
  import opened Wrappers
  import opened Tokens
  import opened Handoff
  import opened HandoffInvariant
  import opened HandoffSteps
  import R = Resume
  import S = Scopes

  /** The step commits a scope: the hand-off of a Console attempt. */
  ghost predicate CommitsScope(w: World, s: Step) {
    !s.Activate? && var e := Effect(w, s).event; e.Some? && e.value.HandedOff? && e.value.commit.Some?
  }

  ghost function CommitMade(w: World, s: Step): R.Commit
    requires CommitsScope(w, s)
  {
    Effect(w, s).event.value.commit.value
  }

  /** The file a committed hand-off switched on, as it reads. */
  function Bound(scope: S.Scope, commit: R.Commit): S.Scope {
    scope.(status := S.Active, activeTokens := scope.targets, activatedAt := Some(commit.committedAt))
  }

  /** A pending directory only matters to the bindings through its commits. */
  lemma SameCommitsSameBindings(scopes: S.Directory, before: R.Directory, after: R.Directory)
    requires forall k :: k in before ==>
      k in after && after[k].key == before[k].key && after[k].scopeCommit == before[k].scopeCommit
    requires forall k :: k in after && k !in before ==> after[k].scopeCommit.None?
    ensures S.ActiveBindings(scopes, after) == S.ActiveBindings(scopes, before)
  {
    forall j | j in scopes
      ensures S.Read(scopes[j], after) == S.Read(scopes[j], before)
    {
    }
  }

  /** Writing a file that does not read as active, over none or over one that did not, changes no binding. */
  lemma InertWrite(scopes: S.Directory, pending: R.Directory, k: S.ScopeKey, scope: S.Scope)
    requires S.Read(scope, pending).status != S.Active
    requires k in scopes ==> S.Read(scopes[k], pending).status != S.Active
    ensures S.ActiveBindings(scopes[k := scope], pending) == S.ActiveBindings(scopes, pending)
  {
  }

  /** A file whose attempt was not handed off is inert. */
  lemma UnhandedIsInert(w: World, k: S.ScopeKey, scope: S.Scope)
    requires CommitsOk(w) && S.WellNamed(k, scope) && k.attempt.Some? && k.attempt.value !in w.history.handed
    ensures S.Read(scope, w.pending).status != S.Active
  {
    if k.resume in w.pending {
      assert CommitOk(k.resume, w.pending[k.resume], w);
    }
  }

  /** Preparing a scope changes no binding: a crash before the second write leaves resolve as it was. */
  lemma PreparingIsInert(w: World, h: HookId, record: R.Record, file: R.Key, now: int, at: int)
    requires RecordsOk(w) && CommitsOk(w) && ScopesOk(w)
    ensures S.ActiveBindings(Put(w.scopes, DoPrepare(w, h, record, file, now, at).scope), w.pending) == Effective(w)
  {
    var c := DoPrepare(w, h, record, file, now, at);
    if c.scope.Some? {
      var k, scope := c.scope.value.0, c.scope.value.1;
      assert RecordOk(file, w.pending[file], w);
      UnhandedIsInert(w, k, scope);
      if k in w.scopes {
        assert S.WellNamed(k, w.scopes[k]);
        UnhandedIsInert(w, k, w.scopes[k]);
      }
      InertWrite(w.scopes, w.pending, k, scope);
    }
  }

  /** So does staging a manual binding: it waits for an activation. */
  lemma StagingIsInert(w: World, packet: R.Packet, targets: set<Token>, workstream: string, now: int)
    ensures S.ActiveBindings(Put(w.scopes, DoStage(w, packet, targets, workstream, now).scope), w.pending)
      == Effective(w)
  {
    var c := DoStage(w, packet, targets, workstream, now);
    if c.scope.Some? {
      InertWrite(w.scopes, w.pending, c.scope.value.0, c.scope.value.1);
    }
  }

  /**
    No other step moves a binding: failed turns, restarts, cancellations, renewals, claims and failed or
    abandoned preparations leave every answer of resolve as it was.
   */
  lemma BindingsUnmoved(w: World, s: Step)
    requires Inv(w) && !s.Activate? && !CommitsScope(w, s)
    ensures Effective(Next(w, s)) == Effective(w)
  {
    if s.StageManual? || (s.Prepare? && s.hook in w.hooks && w.hooks[s.hook].Accepted?) {
      ScopeStepUnmoved(w, s);
    } else {
      UnscopedStep(w, s);
      SoundEffect(w, s);
      WriteKeepsBindings(w, Effect(w, s));
    }
  }

  lemma ScopeStepUnmoved(w: World, s: Step)
    requires RecordsOk(w) && CommitsOk(w) && ScopesOk(w)
    requires s.StageManual? || (s.Prepare? && s.hook in w.hooks && w.hooks[s.hook].Accepted?)
    ensures Effective(Next(w, s)) == Effective(w)
  {
    ScopeStepWritesNoRecord(w, s);
    if s.StageManual? {
      StagingIsInert(w, s.packet, TokensOf(s.conversation), s.workstream, s.now);
    } else if w.hooks[s.hook].record.console.Some? {
      PreparingIsInert(w, s.hook, w.hooks[s.hook].record, s.file, s.now, s.at);
    }
  }

  lemma ScopeStepWritesNoRecord(w: World, s: Step)
    requires s.StageManual? || (s.Prepare? && s.hook in w.hooks && w.hooks[s.hook].Accepted?)
    ensures Effect(w, s).file.None?
    ensures Effect(w, s).scope ==
      if s.StageManual? then DoStage(w, s.packet, TokensOf(s.conversation), s.workstream, s.now).scope
      else if w.hooks[s.hook].record.console.None? then None
      else DoPrepare(w, s.hook, w.hooks[s.hook].record, s.file, s.now, s.at).scope
  {
  }

  lemma WriteKeepsBindings(w: World, c: Change)
    requires RecordsOk(w) && SoundRecord(w, c) && SoundCommit(w, c)
    requires !(c.event.Some? && c.event.value.HandedOff? && c.event.value.commit.Some?)
    ensures S.ActiveBindings(w.scopes, Put(w.pending, c.file)) == Effective(w)
  {
    if c.file.Some? && c.file.value.0 in w.pending {
      assert RecordOk(c.file.value.0, w.pending[c.file.value.0], w);
    }
    SameCommitsSameBindings(w.scopes, w.pending, Put(w.pending, c.file));
  }

  lemma UnscopedStep(w: World, s: Step)
    requires !s.Activate? && !s.StageManual? && !(s.Prepare? && s.hook in w.hooks && w.hooks[s.hook].Accepted?)
    ensures Effect(w, s).scope.None?
  {
  }

  /** The file an earlier commit of the Resume had switched on. */
  function Prior(commit: Option<R.Commit>): set<S.ScopeKey> {
    if commit.Some? then {S.PreparedKey(commit.value)} else {}
  }

  lemma CommitWrite(scopes: S.Directory, before: R.Directory, record: R.Record, k: S.ScopeKey, c: R.Commit)
    requires S.Valid(scopes) && k == S.PreparedKey(c) && k in scopes && k.resume in before
    requires scopes[k].status == S.Prepared && S.Identity(scopes[k]) == Some(c.scope)
    requires before[k.resume].key == k.resume == record.key && record.scopeCommit == Some(c)
    requires before[k.resume].scopeCommit.Some? ==>
      && before[k.resume].scopeCommit.value.attempt != c.attempt
      && before[k.resume].scopeCommit.value.scope.key == k.resume
    ensures S.ActiveBindings(scopes, before[k.resume := record])
         == (S.ActiveBindings(scopes, before) - Prior(before[k.resume].scopeCommit))[k := Bound(scopes[k], c)]
  {
    var after := before[k.resume := record];
    forall j | j in scopes
      ensures j == k ==> S.Read(scopes[j], after) == Bound(scopes[j], c)
      ensures j != k && j !in Prior(before[k.resume].scopeCommit) ==>
        (S.Read(scopes[j], after).status == S.Active <==> S.Read(scopes[j], before).status == S.Active) &&
        (S.Read(scopes[j], after).status == S.Active ==> S.Read(scopes[j], after) == S.Read(scopes[j], before))
      ensures j != k && j in Prior(before[k.resume].scopeCommit) ==> S.Read(scopes[j], after).status != S.Active
    {
      assert S.WellNamed(j, scopes[j]);
    }
  }

  /**
    The commit is one abstract step: it switches the prepared file on and the file of the same Resume's
    earlier commit off, and touches no other binding.
   */
  lemma CommitSwitches(w: World, s: Step)
    requires Inv(w) && CommitsScope(w, s)
    ensures var c := CommitMade(w, s);
      var k := S.PreparedKey(c);
      && k in w.scopes && k.resume in w.pending
      && Effective(Next(w, s)) == (Effective(w) - Prior(w.pending[k.resume].scopeCommit))[k := Bound(w.scopes[k], c)]
  {
    var c := CommitMade(w, s);
    var k := S.PreparedKey(c);
    SoundEffect(w, s);
    CommitIsReady(w, s);
    CommitWrite(w.scopes, w.pending, Effect(w, s).file.value.1, k, c);
  }

  lemma CommitIsReady(w: World, s: Step)
    requires Inv(w) && CommitsScope(w, s)
    ensures var e := Effect(w, s);
      && e.scope.None? && e.file.Some? && e.file.value.0 == CommitMade(w, s).scope.key
      && ReadyToCommit(w, CommitMade(w, s), e.file.value.1)
  {
    CommitIsMark(w, s);
    MarkIsReady(w, s.hook, w.hooks[s.hook], s.file, s.now);
  }

  lemma CommitIsMark(w: World, s: Step)
    requires CommitsScope(w, s)
    ensures s.Mark? && s.hook in w.hooks && w.hooks[s.hook].Prepared? && Unreturned(w, s.file, w.hooks[s.hook].record)
    ensures Effect(w, s) == DoMark(w, s.hook, w.hooks[s.hook].record, s.file, s.now, Some(w.hooks[s.hook].commit))
  {
  }

  /** The prepared file of the commit is there and inert, and the record's earlier commit is another attempt's. */
  ghost predicate ReadyToCommit(w: World, c: R.Commit, record: R.Record) {
    var k := S.PreparedKey(c);
    && k in w.scopes && k.resume in w.pending && w.scopes[k].status == S.Prepared
    && S.Identity(w.scopes[k]) == Some(c.scope)
    && w.pending[k.resume].key == k.resume == record.key && record.scopeCommit == Some(c)
    && var prior := w.pending[k.resume].scopeCommit;
    && (prior.Some? ==> prior.value.attempt != c.attempt && prior.value.scope.key == k.resume)
  }

  lemma MarkIsReady(w: World, h: HookId, hook: Hook, file: R.Key, now: int)
    requires IdsOk(w) && RecordsOk(w) && CommitsOk(w) && ScopesOk(w) && HookOk(h, hook, w) && hook.Prepared?
    requires Unreturned(w, file, hook.record)
    ensures hook.commit.scope.key == file
    ensures ReadyToCommit(w, hook.commit, R.HandedOff(w.pending[file], now, Some(hook.commit)))
  {
    var k := S.PreparedKey(hook.commit);
    assert RecordOk(file, w.pending[file], w) && CommitOk(file, w.pending[file], w);
    assert S.WellNamed(k, w.scopes[k]) && ScopeOk(k, w.scopes[k], w);
  }

  /** A committed scope names one session, the one its attempt was claimed by. */
  lemma CommitNamesSession(w: World, s: Step)
    requires Inv(w) && CommitsScope(w, s)
    ensures var c := CommitMade(w, s);
      && c.scope.targets == {SessionToken(c.scope.session)}
      && c.attempt in w.claims && w.claims[c.attempt].session == Some(c.scope.session)
  {
    CommitIsMark(w, s);
    assert HookOk(s.hook, w.hooks[s.hook], w);
    assert R.CompleteClaim(w.claims[CommitMade(w, s).attempt]);
  }

  /**
    The committed scope answers at once: while no binding is as new as its stamp, it is the only answer
    for every list that names its session.
   */
  lemma CommitAnswers(w: World, s: Step, candidates: set<Token>)
    requires Inv(w) && CommitsScope(w, s)
    requires forall k :: k in Effective(w) ==> S.ActivationTime(Effective(w)[k]) < CommitMade(w, s).committedAt
    requires SessionToken(CommitMade(w, s).scope.session) in candidates
    ensures S.Winners(Effective(Next(w, s)), candidates) == {S.PreparedKey(CommitMade(w, s))}
  {
    var c := CommitMade(w, s);
    CommitSwitches(w, s);
    CommitNamesSession(w, s);
    CommitIsReady(w, s);
    NewestOfItsSession(Effective(w) - Prior(w.pending[c.scope.key].scopeCommit), S.PreparedKey(c),
                       Bound(w.scopes[S.PreparedKey(c)], c), candidates, SessionToken(c.scope.session));
  }

  lemma NewestOfItsSession(rest: S.Bindings, k: S.ScopeKey, scope: S.Scope, candidates: set<Token>, own: Token)
    requires scope.targets == {own} && own.kind == Session && own in candidates
    requires forall j :: j in rest ==> S.ActivationTime(rest[j]) < S.ActivationTime(scope)
    ensures S.Winners(rest[k := scope], candidates) == {k}
  {
    var after := rest[k := scope];
    S.OneSessionBinding(after[k], own, candidates);
    assert forall j :: j in after && j != k ==> S.ActivationTime(after[j]) < S.ActivationTime(after[k]);
  }

  /** Lists that neither the new nor the replaced binding answers keep their answers. */
  lemma CommitLeavesOthers(w: World, s: Step, candidates: set<Token>)
    requires Inv(w) && CommitsScope(w, s)
    requires SessionToken(CommitMade(w, s).scope.session) !in candidates
    requires forall k :: k in Effective(w) && k.resume == CommitMade(w, s).scope.key && k.attempt.Some?
               ==> !S.Binds(Effective(w)[k], candidates)
    ensures S.Winners(Effective(Next(w, s)), candidates) == S.Winners(Effective(w), candidates)
  {
    var c := CommitMade(w, s);
    var k := S.PreparedKey(c);
    CommitSwitches(w, s);
    CommitNamesSession(w, s);
    CommitIsReady(w, s);
    SwitchedAside(Effective(w), Prior(w.pending[k.resume].scopeCommit), k, Bound(w.scopes[k], c), candidates,
                  SessionToken(c.scope.session));
  }

  lemma SwitchedAside(before: S.Bindings, off: set<S.ScopeKey>, k: S.ScopeKey, scope: S.Scope, candidates: set<Token>,
                      own: Token)
    requires scope.targets == {own} && own.kind == Session && own !in candidates
    requires forall j :: j in before && (j in off || j == k) ==> !S.Binds(before[j], candidates)
    ensures S.Winners((before - off)[k := scope], candidates) == S.Winners(before, candidates)
  {
    S.OneSessionBinding(scope, own, candidates);
    S.SameWinners(before, (before - off)[k := scope], candidates);
  }

  // ---------------------------------------------------------------- durability of a committed scope

  /**
    The step takes the place of the committed scope: a later hand-off of its Resume, or an activation it
    gives way to.
   */
  ghost predicate Displaces(w: World, s: Step, c: R.Commit) {
    if s.Activate? then
      && s.chosen in w.scopes && S.PreparedKey(c) in Effective(w)
      && S.GivesWay(Effective(w)[S.PreparedKey(c)], w.scopes[s.chosen], s.candidates)
    else
      CommitsScope(w, s) && CommitMade(w, s).scope.key == c.scope.key
  }

  ghost predicate NeverDisplaced(w: World, steps: seq<Step>, c: R.Commit)
    decreases |steps|
  {
    steps == [] || (!Displaces(w, steps[0], c) && NeverDisplaced(Next(w, steps[0]), steps[1..], c))
  }

  /** The committed scope is in force: its record carries the commit and its file reads as active. */
  ghost predicate InForce(w: World, c: R.Commit, scope: S.Scope) {
    && c.scope.key in w.pending && w.pending[c.scope.key].scopeCommit == Some(c)
    && S.PreparedKey(c) in Effective(w) && Effective(w)[S.PreparedKey(c)] == scope
  }

  /** A record always carries the commit of the last hand-off that bound its Resume, whatever happened since. */
  lemma CommitIsLast(steps: seq<Step>, k: R.Key)
    requires k in Run(INITIAL, steps).pending
    ensures Run(INITIAL, steps).pending[k].scopeCommit == LastCommit(Run(INITIAL, steps).history.log, k)
  {
    RunKeeps(INITIAL, steps);
  }

  /** A committed scope is in force unless an activation has superseded its file. */
  lemma CommittedIsInForce(steps: seq<Step>, k: R.Key)
    requires k in Run(INITIAL, steps).pending && Run(INITIAL, steps).pending[k].scopeCommit.Some?
    ensures var w := Run(INITIAL, steps);
      var c := w.pending[k].scopeCommit.value;
      var file := S.PreparedKey(c);
      && file in w.scopes
      && (w.scopes[file].status == S.Superseded || InForce(w, c, Bound(w.scopes[file], c)))
  {
    RunKeeps(INITIAL, steps);
    var w := Run(INITIAL, steps);
    var file := S.PreparedKey(w.pending[k].scopeCommit.value);
    assert CommitOk(k, w.pending[k], w) && RecordOk(k, w.pending[k], w);
    assert S.WellNamed(file, w.scopes[file]) && ScopeOk(file, w.scopes[file], w);
    CommitReads(w, k);
  }

  /** The file that a record commits reads as bound, unless it was superseded. */
  lemma CommitReads(w: World, k: R.Key)
    requires k in w.pending && w.pending[k].key == k && w.pending[k].scopeCommit.Some? && CommitOk(k, w.pending[k], w)
    requires var file := S.PreparedKey(w.pending[k].scopeCommit.value);
      file in w.scopes && S.WellNamed(file, w.scopes[file]) && ScopeOk(file, w.scopes[file], w)
    ensures var c := w.pending[k].scopeCommit.value;
      var scope := w.scopes[S.PreparedKey(c)];
      scope.status == S.Superseded || InForce(w, c, Bound(scope, c))
  {
  }

  /**
    A committed scope is durable: until an activation it gives way to, or a later hand-off of the same
    Resume, no sequence of failed turns, restarts, cancellations, renewals, failed preparations and other
    activations takes its binding away or changes it.
   */
  lemma {:induction false} CommittedScopeStays(w: World, steps: seq<Step>, c: R.Commit, scope: S.Scope)
    requires Inv(w) && InForce(w, c, scope) && NeverDisplaced(w, steps, c)
    ensures InForce(Run(w, steps), c, scope)
    decreases |steps|
  {
    if steps != [] {
      StepKeeps(w, steps[0]);
      OneStepKeepsScope(w, steps[0], c, scope);
      CommittedScopeStays(Next(w, steps[0]), steps[1..], c, scope);
    }
  }

  lemma OneStepKeepsScope(w: World, s: Step, c: R.Commit, scope: S.Scope)
    requires Inv(w) && InForce(w, c, scope) && !Displaces(w, s, c)
    ensures InForce(Next(w, s), c, scope)
  {
    if s.Activate? {
      if Next(w, s) != w {
        S.ActivateBindings(w.scopes, w.pending, s.chosen, s.candidates, s.session, s.at);
      }
    } else {
      SoundEffect(w, s);
      if CommitsScope(w, s) {
        OtherCommitKeepsScope(w, s, c, scope);
      } else {
        BindingsUnmoved(w, s);
        CommitCarriedOver(w, Effect(w, s), c);
      }
    }
  }

  lemma CommitCarriedOver(w: World, change: Change, c: R.Commit)
    requires c.scope.key in w.pending && w.pending[c.scope.key].scopeCommit == Some(c) && SoundCommit(w, change)
    requires (change.event.Some? && change.event.value.HandedOff? && change.event.value.commit.Some?) ==>
      change.event.value.key != c.scope.key
    ensures var pending :=
      Apply(w, change).pending; c.scope.key in pending && pending[c.scope.key].scopeCommit == Some(c)
  {
  }

  lemma OtherCommitKeepsScope(w: World, s: Step, c: R.Commit, scope: S.Scope)
    requires Inv(w) && InForce(w, c, scope) && CommitsScope(w, s) && CommitMade(w, s).scope.key != c.scope.key
    requires Sound(w, Effect(w, s))
    ensures InForce(Next(w, s), c, scope)
  {
    CommitSwitches(w, s);
    CommitIsReady(w, s);
    CommitCarriedOver(w, Effect(w, s), c);
    var k := S.PreparedKey(CommitMade(w, s));
    assert Next(w, s) == Apply(w, Effect(w, s));
    assert k.resume == CommitMade(w, s).scope.key && S.PreparedKey(c).resume == c.scope.key;
    PriorIsOwn(w, CommitMade(w, s), Effect(w, s).file.value.1);
    SwitchedElsewhere(w, Next(w, s), Prior(w.pending[k.resume].scopeCommit), k, Bound(w.scopes[k], CommitMade(w, s)),
                      c, scope);
  }

  lemma PriorIsOwn(w: World, c: R.Commit, record: R.Record)
    requires ReadyToCommit(w, c, record)
    ensures forall file :: file in Prior(w.pending[S.PreparedKey(c).resume].scopeCommit) ==> file.resume == c.scope.key
  {
  }

  /** A switch of other files leaves a committed scope in force. */
  lemma SwitchedElsewhere(w: World, w': World, off: set<S.ScopeKey>, k: S.ScopeKey, on: S.Scope, c: R.Commit,
                          scope: S.Scope)
    requires InForce(w, c, scope) && S.PreparedKey(c) !in off && S.PreparedKey(c) != k
    requires Effective(w') == (Effective(w) - off)[k := on]
    requires c.scope.key in w'.pending && w'.pending[c.scope.key].scopeCommit == Some(c)
    ensures InForce(w', c, scope)
  {
  }

  // ---------------------------------------------------------------- sessions apart

  /** Bindings to sessions only name one session each, in every run. */
  lemma StepKeepsOneSession(w: World, s: Step)
    requires ScopesOk(w) && S.OneSessionEach(w.scopes)
    ensures S.OneSessionEach(Next(w, s).scopes)
  {
    if s.Activate? {
      if S.Chosen(w.scopes, s.candidates, s.now, s.chosen) {
        S.ActivateKeepsValid(w.scopes, w.pending, s.chosen, s.candidates, s.session, s.at);
      }
    } else {
      WrittenScopeOneSession(w, s);
    }
  }

  lemma WrittenScopeOneSession(w: World, s: Step)
    requires !s.Activate?
    ensures var scope := Effect(w, s).scope;
      scope.Some? ==> forall t, t' ::
        t in scope.value.1.targets && t' in scope.value.1.targets && t.kind == t'.kind ==> t == t'
  {
    if s.StageManual? {
      assert forall t, t' :: t in TokensOf(s.conversation) && t' in TokensOf(s.conversation) && t.kind == t'.kind ==>
        t == t';
    } else if s.Prepare? && s.hook in w.hooks && w.hooks[s.hook].Accepted? {
      assert forall x :: forall t, t' ::
        t in ScopeTokens("", "", "", x) && t' in ScopeTokens("", "", "", x) && t.kind == t'.kind ==> t == t';
    } else {
      UnscopedStep(w, s);
    }
  }

  lemma {:induction false} RunKeepsOneSession(w: World, steps: seq<Step>)
    requires Inv(w) && S.OneSessionEach(w.scopes)
    ensures S.OneSessionEach(Run(w, steps).scopes)
    decreases |steps|
  {
    if steps != [] {
      StepKeeps(w, steps[0]);
      StepKeepsOneSession(w, steps[0]);
      RunKeepsOneSession(Next(w, steps[0]), steps[1..]);
    }
  }

  /**
    Sessions do not interfere, in every reachable world: activating a session's binding for a list that
    names no other session leaves the answers for every list without that session as they were.
   */
  lemma SessionsApart(steps: seq<Step>, s: Step, own: Token, other: set<Token>)
    requires s.Activate? && s.chosen in Run(INITIAL, steps).scopes
    requires Run(INITIAL, steps).scopes[s.chosen].targets == {own} && own.kind == Session
    requires forall t :: t in s.candidates && t.kind == Session ==> t == own
    requires own !in other
    ensures var w := Run(INITIAL, steps);
      && S.Winners(Effective(Next(w, s)), other) == S.Winners(Effective(w), other)
      && forall j :: j in S.Winners(Effective(w), other) ==> Effective(Next(w, s))[j] == Effective(w)[j]
  {
    var w := Run(INITIAL, steps);
    RunKeeps(INITIAL, steps);
    RunKeepsOneSession(INITIAL, steps);
    if S.Chosen(w.scopes, s.candidates, s.now, s.chosen) && S.IsNextActivation(Effective(w), s.now, s.at) {
      S.SessionNonInterference(w.scopes, w.pending, s.chosen, s.candidates, s.session, s.now, s.at, own, other);
    }
  }
}
