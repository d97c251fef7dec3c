/**
  Task-scope bindings on disk. A prepared file is inert: whether it binds is decided on every read by
  joining it with the pending record it names.
 */
module Scopes {
  import opened Wrappers
  import opened Tokens
  import Resume

  /** The file name: the manual binding of a Resume, or the one prepared by an attempt. */
  datatype ScopeKey = ScopeKey(resume: Resume.Key, attempt: Option<Resume.Id>)

  /** Waiting is the source's "pending". */
  datatype ScopeStatus = Waiting | Active | Superseded | Prepared

  datatype Handoff = Handoff(file: Resume.Key, attempt: Resume.Id)

  datatype Scope = Scope(
    resume: Resume.Key, project: string, task: string, workstream: string,
    targets: set<Token>, activeTokens: set<Token>, session: Option<string>, status: ScopeStatus,
    createdAt: int, expiresAt: int, activatedAt: Option<int>, supersededBy: Option<string>,
    handoff: Option<Handoff>, preparedAt: Option<int>)

  type Directory = map<ScopeKey, Scope>

  /** The effective bindings: active files only, as they read. */
  type Bindings = map<ScopeKey, Scope>

  // ---------------------------------------------------------------- reading

  function Identity(scope: Scope): Option<Resume.ScopeIdentity> {
    if scope.session.None? then None
    else Some(Resume.ScopeIdentity(scope.resume, scope.project, scope.task, scope.workstream, scope.targets,
                                   scope.session.value))
  }

  /** The pending record commits this file: same attempt, same identity, same Resume. */
  predicate CommittedBy(scope: Scope, handoff: Handoff, pending: Resume.Directory) {
    handoff.file in pending &&
    pending[handoff.file].scopeCommit.Some? &&
    var commit := pending[handoff.file].scopeCommit.value;
    commit.attempt == handoff.attempt && Identity(scope) == Some(commit.scope) &&
    pending[handoff.file].key == scope.resume
  }

  function Read(scope: Scope, pending: Resume.Directory): Scope {
    if scope.handoff.None? || scope.status !in {Prepared, Active} then
      scope
    else if CommittedBy(scope, scope.handoff.value, pending) then
      scope.(status := Active, activeTokens := scope.targets,
             activatedAt := Some(pending[scope.handoff.value.file].scopeCommit.value.committedAt))
    else
      scope.(status := Prepared, activeTokens := {})
  }

  function ActiveBindings(dir: Directory, pending: Resume.Directory): Bindings {
    map k | k in dir && Read(dir[k], pending).status == Active :: Read(dir[k], pending)
  }

  // ---------------------------------------------------------------- matching and lookup

  /** The tokens a binding answers to; the widened copy is never trusted for a session scope. */
  function BindingTokens(scope: Scope, active: bool): set<Token> {
    if AllSessions(scope.targets) || !active || scope.activeTokens == {} then scope.targets
    else scope.activeTokens
  }

  predicate Binds(scope: Scope, candidates: set<Token>) {
    TokensMatch(BindingTokens(scope, true), candidates)
  }

  function ActivationTime(scope: Scope): int {
    Resume.Or(scope.activatedAt, 0)
  }

  /** What resolve may answer: the matching bindings that no matching binding is newer than. */
  function Winners(bindings: Bindings, candidates: set<Token>): set<ScopeKey> {
    set k | k in bindings && Binds(bindings[k], candidates)
            && forall j :: j in bindings && Binds(bindings[j], candidates)
                 ==> ActivationTime(bindings[j]) <= ActivationTime(bindings[k])
  }

  /** The stamp of a new activation: the clock, or one microsecond after the latest active binding. */
  ghost predicate IsNextActivation(bindings: Bindings, now: int, at: int) {
    && (forall k :: k in bindings ==> ActivationTime(bindings[k]) < at)
    && (at == now || (at > now && exists k :: k in bindings && at == ActivationTime(bindings[k]) + 1))
  }

  // ---------------------------------------------------------------- staging

  function FreshScope(packet: Resume.Packet, project: string, task: string, targets: set<Token>, workstream: string,
                      now: int): Scope {
    Scope(packet.key, project, task, workstream, targets, {}, None, Waiting, now, now + Resume.PENDING_TTL,
          None, None, None, None)
  }

  /** The file an attempt prepares for the commit it is about to make. */
  function PreparedScope(commit: Resume.Commit, now: int, preparedAt: int): Scope {
    var scope := commit.scope;
    Scope(scope.key, scope.project, scope.task, scope.workstream, scope.targets, {}, Some(scope.session), Prepared,
          now, now + Resume.PENDING_TTL, None, None, Some(Handoff(scope.key, commit.attempt)), Some(preparedAt))
  }

  function PreparedKey(commit: Resume.Commit): ScopeKey {
    ScopeKey(commit.scope.key, Some(commit.attempt))
  }

  // ---------------------------------------------------------------- activation

  predicate Waits(scope: Scope, candidates: set<Token>, now: int) {
    scope.status == Waiting && now < scope.expiresAt && TokensMatch(BindingTokens(scope, false), candidates)
  }

  /** The waiting bindings activate may choose: matching, unexpired, and none created later. */
  predicate Chosen(dir: Directory, candidates: set<Token>, now: int, k: ScopeKey) {
    k in dir && Waits(dir[k], candidates, now) &&
    forall j :: j in dir && Waits(dir[j], candidates, now) ==> dir[j].createdAt <= dir[k].createdAt
  }

  /** An exact session choice leaves broad bindings alone; otherwise a matching binding gives way. */
  predicate GivesWay(other: Scope, chosen: Scope, candidates: set<Token>) {
    other.status == Active && !(AllSessions(chosen.targets) && !AllSessions(other.targets)) && Binds(other, candidates)
  }

  function Activated(scope: Scope, candidates: set<Token>, session: string, at: int): Scope {
    scope.(status := Active,
           activeTokens := if AllSessions(scope.targets) then scope.targets else scope.targets + candidates,
           session := if session == "" then None else Some(session),
           activatedAt := Some(at))
  }

  function GivenWay(other: Scope, chosen: Scope): Scope {
    other.(status := Superseded, supersededBy := Some(chosen.resume.resumeId))
  }

  /** What activating the binding chosen leaves of another file. */
  function Yielded(raw: Scope, pending: Resume.Directory, chosen: Scope, candidates: set<Token>): Scope {
    if GivesWay(Read(raw, pending), chosen, candidates) then GivenWay(Read(raw, pending), chosen) else raw
  }

  /** The directory after the binding at k has been activated. */
  function Activate(dir: Directory, pending: Resume.Directory, k: ScopeKey, candidates: set<Token>, session: string,
                    at: int): Directory
    requires k in dir
  {
    map j | j in dir ::
      if j == k then Activated(dir[k], candidates, session, at) else Yielded(dir[j], pending, dir[k], candidates)
  }

  /** What every file of the directory satisfies; kept by staging, hand-off and activation. */
  ghost predicate WellNamed(k: ScopeKey, scope: Scope) {
    && scope.resume == k.resume
    && scope.targets != {}
    && match k.attempt
       case None =>
         scope.handoff.None? && scope.status != Prepared && (scope.status == Active ==> scope.activatedAt.Some?)
       case Some(a) => scope.handoff == Some(Handoff(k.resume, a)) && scope.status in {Prepared, Superseded}
  }

  ghost predicate Valid(dir: Directory) {
    forall k :: k in dir ==> WellNamed(k, dir[k])
  }

  /** Bindings to sessions only name exactly one, as every caller's selectors do. */
  ghost predicate OneSessionEach(dir: Directory) {
    forall k, s, t :: k in dir && AllSessions(dir[k].targets) && s in dir[k].targets && t in dir[k].targets ==> s == t
  }

  lemma ActivateKeepsValid(dir: Directory, pending: Resume.Directory, k: ScopeKey, candidates: set<Token>,
                           session: string, at: int)
    requires Valid(dir) && k in dir && dir[k].status == Waiting
    ensures Valid(Activate(dir, pending, k, candidates, session, at))
    ensures OneSessionEach(dir) ==> OneSessionEach(Activate(dir, pending, k, candidates, session, at))
  {
    var after := Activate(dir, pending, k, candidates, session, at);
    forall j | j in after
      ensures WellNamed(j, after[j]) && after[j].targets == dir[j].targets
    {
      assert WellNamed(j, dir[j]);
    }
    assert forall j :: j in after ==> AllSessions(after[j].targets) == AllSessions(dir[j].targets);
  }

  /** The bindings in force after an activation: the superseded ones gone, the chosen one on, the rest untouched. */
  lemma ActivateBindings(dir: Directory, pending: Resume.Directory, k: ScopeKey, candidates: set<Token>,
                         session: string, at: int)
    requires Valid(dir) && k in dir && dir[k].status == Waiting
    ensures var before := ActiveBindings(dir, pending);
      var after := ActiveBindings(Activate(dir, pending, k, candidates, session, at), pending);
      && k !in before && k in after && after[k] == Activated(dir[k], candidates, session, at)
      && forall j :: j != k ==> (j in after <==> j in before && !GivesWay(before[j], dir[k], candidates))
                                && (j in after ==> after[j] == before[j])
  {
    assert WellNamed(k, dir[k]);
  }

  /**
    activate agrees with resolve: right after an activation, the binding it returned is the only answer
    resolve can give to the same list, whatever the clock showed.
   */
  lemma ActivateAgreesWithResolve(dir: Directory, pending: Resume.Directory, k: ScopeKey, candidates: set<Token>,
                                  session: string, now: int, at: int)
    requires Valid(dir) && Chosen(dir, candidates, now, k)
    requires IsNextActivation(ActiveBindings(dir, pending), now, at)
    ensures var after := ActiveBindings(Activate(dir, pending, k, candidates, session, at), pending);
      Winners(after, candidates) == {k} && after[k] == Activated(dir[k], candidates, session, at)
  {
    ActivateBindings(dir, pending, k, candidates, session, at);
    var after := ActiveBindings(Activate(dir, pending, k, candidates, session, at), pending);
    MatchMeansCommon(KINDS, dir[k].targets, candidates);
    if !AllSessions(dir[k].targets) {
      WidenedStillMatches(KINDS, dir[k].targets, candidates);
    }
    NewestWins(after, k, candidates);
  }

  lemma NewestWins(bindings: Bindings, k: ScopeKey, candidates: set<Token>)
    requires k in bindings && Binds(bindings[k], candidates)
    requires forall j :: j in bindings && j != k ==> ActivationTime(bindings[j]) < ActivationTime(bindings[k])
    ensures Winners(bindings, candidates) == {k}
  {
  }

  /**
    Sessions do not interfere: activating a one-session binding for a list that names no other session
    leaves the answers for every list without that session exactly as they were.
   */
  lemma SessionNonInterference(dir: Directory, pending: Resume.Directory, k: ScopeKey, candidates: set<Token>,
                               session: string, now: int, at: int, own: Token, other: set<Token>)
    requires Valid(dir) && OneSessionEach(dir) && Chosen(dir, candidates, now, k)
    requires dir[k].targets == {own} && own.kind == Session
    requires forall t :: t in candidates && t.kind == Session ==> t == own
    requires own !in other
    ensures var before := ActiveBindings(dir, pending);
      var after := ActiveBindings(Activate(dir, pending, k, candidates, session, at), pending);
      Winners(after, other) == Winners(before, other) &&
      forall j :: j in Winners(before, other) ==> after[j] == before[j]
  {
    var before := ActiveBindings(dir, pending);
    var after := ActiveBindings(Activate(dir, pending, k, candidates, session, at), pending);
    ActivateBindings(dir, pending, k, candidates, session, at);
    SupersededAreOwn(dir, pending, dir[k], candidates, own);
    OthersKeepTheirAnswers(before, after, k, dir[k], candidates, own, other);
  }

  lemma SupersededAreOwn(dir: Directory, pending: Resume.Directory, chosen: Scope, candidates: set<Token>, own: Token)
    requires OneSessionEach(dir) && AllSessions(chosen.targets)
    requires forall t :: t in candidates && t.kind == Session ==> t == own
    ensures var before := ActiveBindings(dir, pending);
      forall j :: j in before && GivesWay(before[j], chosen, candidates) ==> before[j].targets == {own}
  {
    var before := ActiveBindings(dir, pending);
    forall j | j in before && GivesWay(before[j], chosen, candidates)
      ensures before[j].targets == {own}
    {
      assert before[j].targets == dir[j].targets;
      SupersededIsOwn(before[j], chosen, candidates, own);
    }
  }

  lemma OthersKeepTheirAnswers(before: Bindings, after: Bindings, k: ScopeKey, chosen: Scope, candidates: set<Token>,
                               own: Token, other: set<Token>)
    requires own.kind == Session && own !in other
    requires k !in before && k in after && after[k].targets == {own}
    requires forall j :: j != k ==> (j in after <==> j in before && !GivesWay(before[j], chosen, candidates))
                                    && (j in after ==> after[j] == before[j])
    requires forall j :: j in before && GivesWay(before[j], chosen, candidates) ==> before[j].targets == {own}
    ensures Winners(after, other) == Winners(before, other)
    ensures forall j :: j in Winners(before, other) ==> after[j] == before[j]
  {
    OneSessionBinding(after[k], own, other);
    forall j | j in before && GivesWay(before[j], chosen, candidates)
      ensures !Binds(before[j], other)
    {
      OneSessionBinding(before[j], own, other);
    }
    SameWinners(before, after, other);
  }

  /** Answers depend only on the bindings that match. */
  lemma SameWinners(before: Bindings, after: Bindings, candidates: set<Token>)
    requires forall j :: j in before && Binds(before[j], candidates) <==> j in after && Binds(after[j], candidates)
    requires forall j :: j in before && Binds(before[j], candidates) ==> after[j] == before[j]
    ensures Winners(after, candidates) == Winners(before, candidates)
  {
  }

  /** The only binding an exact session choice removes is that session's own. */
  lemma SupersededIsOwn(other: Scope, chosen: Scope, candidates: set<Token>, own: Token)
    requires AllSessions(chosen.targets) && GivesWay(other, chosen, candidates)
    requires forall s, t :: s in other.targets && t in other.targets ==> s == t
    requires forall t :: t in candidates && t.kind == Session ==> t == own
    ensures other.targets == {own}
  {
    SessionScopeMatch(other.targets, candidates);
    var t :| t in other.targets * candidates;
    assert forall s :: s in other.targets ==> s == t;
  }

  /**
    A one-session binding answers exactly the lists that name its session, whatever its stored active
    tokens say.
   */
  lemma OneSessionBinding(scope: Scope, own: Token, candidates: set<Token>)
    requires scope.targets == {own} && own.kind == Session
    ensures Binds(scope, candidates) <==> own in candidates
  {
    SessionScopeMatch(scope.targets, candidates);
    assert own in candidates ==> own in scope.targets * candidates;
  }

  /**
    Two sessions never share a binding: one that targets a session answers the tokens of a conversation
    exactly when that conversation is of the same, named session, whatever else the two have in common.
   */
  lemma SessionsNeverShare(scope: Scope, session: string, caller: Selectors)
    requires scope.targets == {SessionToken(session)}
    ensures Binds(scope, TokensOf(caller)) <==> caller.session == session != ""
  {
    OneSessionBinding(scope, SessionToken(session), TokensOf(caller));
    if SessionToken(session) in TokensOf(caller) {
      SessionTokenInjective(session, caller.session);
    }
  }
}
