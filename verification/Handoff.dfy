/**
  The hand-off protocol: any number of hooks, over the shared pending and scope directories, with
  restarts. Each step is one atomic store operation, one answer from the server, or one return to the
  host; a pass that ends many records is a run of single endings. Steps interleave freely, also where
  the directory lock would forbid it, so what holds here holds for the locked stores and for a crash
  between any two steps.
 */
module Handoff {
  import opened Wrappers
  import opened Tokens
  import R = Resume
  import S = Scopes

  type HookId = nat

  /** Where one run of pre_llm_call stands; it acts on the copy of the record that its claim returned. */
  datatype Hook =
    | Ready(candidates: set<Token>, caller: R.Caller)
    | Claimed(record: R.Record)
    | Accepted(record: R.Record)
    | Prepared(record: R.Record, commit: R.Commit)
    | Marked(record: R.Record)
    | Erred(record: R.Record, permanent: bool)
    | Done

  datatype Event =
    | Injected(attempt: R.Id, payload: R.Payload)
    | HandedOff(attempt: R.Id, key: R.Key, hook: HookId, commit: Option<R.Commit>)
    | Returned(attempt: R.Id)
    | Ended(attempt: R.Id, phase: R.Phase, console: bool, report: Option<R.Payload>)
    | Dropped(attempt: R.Id)

  /** The log of a run, and which attempts it has seen in each role; a hand-off remembers its hook. */
  datatype History = History(
    log: seq<Event>, accepted: set<R.Id>, handed: map<R.Id, HookId>, returned: set<R.Id>, ended: set<R.Id>)

  const EMPTY := History([], {}, map[], {}, {})

  function Log(h: History, e: Event): History {
    var h' := h.(log := h.log + [e]);
    match e
    case Injected(a, _) => h'.(accepted := h.accepted + {a})
    case HandedOff(a, _, hook, _) => h'.(handed := h.handed[a := hook])
    case Returned(a) => h'.(returned := h.returned + {a})
    case Ended(a, _, _, _) => h'.(ended := h.ended + {a})
    case Dropped(a) => h'.(ended := h.ended + {a})
  }

  function Tally(log: seq<Event>): History {
    if log == [] then EMPTY else Log(Tally(log[..|log| - 1]), log[|log| - 1])
  }

  /**
    The discipline of the protocol. An attempt is handed off once, after its injection was accepted and
    before any outcome; it is returned to the host once, after its hand-off; it has one outcome, and a
    Console attempt is acknowledged only after its own hand-off.
   */
  predicate Allowed(past: History, e: Event) {
    match e
    case Injected(_, _) => true
    case HandedOff(a, _, _, _) => a in past.accepted && a !in past.handed && a !in past.ended
    case Returned(a) => a in past.handed && a !in past.returned
    case Ended(a, phase, console, _) => a !in past.ended && (phase == R.Acknowledged && console ==> a in past.handed)
    case Dropped(a) => a !in past.ended && a !in past.handed
  }

  predicate Disciplined(log: seq<Event>) {
    log == [] ||
    (Disciplined(log[..|log| - 1]) && Allowed(Tally(log[..|log| - 1]), log[|log| - 1]))
  }

  /** Besides the directories: which record minted an attempt, and the record as its attempt was claimed. */
  datatype World = World(
    pending: R.Directory, scopes: S.Directory, nextId: R.Id, hooks: map<HookId, Hook>,
    owner: map<R.Id, R.Key>, claims: map<R.Id, R.Record>, history: History)

  const INITIAL := World(map[], map[], 0, map[], map[], map[], EMPTY)

  datatype Step =
    | Queue(packet: R.Packet, targets: set<Token>, workstream: string, console: bool, now: int)
    | Spawn(hook: HookId, candidates: set<Token>, caller: R.Caller)
    | Claim(hook: HookId, file: R.Key, workstream: string, now: int)
    | Submit(hook: HookId, accepted: bool, permanent: bool)
    | Prepare(hook: HookId, file: R.Key, now: int, at: int)
    | Mark(hook: HookId, file: R.Key, now: int)
    | Fault(hook: HookId)
    | Return(hook: HookId)
    | Cancel(hook: HookId, file: R.Key, code: string)
    | Fail(hook: HookId, file: R.Key, code: string, now: int)
    | Die(hook: HookId)
    | EndTurn(file: R.Key, session: string, success: bool, now: int)
    | Recover(file: R.Key, now: int)
    | StageManual(packet: R.Packet, conversation: Selectors, workstream: string, now: int)
    | Activate(chosen: S.ScopeKey, candidates: set<Token>, session: string, now: int, at: int)

  // ---------------------------------------------------------------- the steps

  /**
    What one step does: at most one write in each directory, one move of one hook, one event, one new
    attempt and one claim, spending so many fresh identifiers.
   */
  datatype Change = Change(
    file: Option<(R.Key, R.Record)>, scope: Option<(S.ScopeKey, S.Scope)>, hook: Option<(HookId, Hook)>,
    event: Option<Event>, mint: Option<(R.Id, R.Key)>, claim: Option<R.Record>, spent: nat)

  const NOTHING := Change(None, None, None, None, None, None, 0)

  function Put<K, V>(m: map<K, V>, entry: Option<(K, V)>): map<K, V> {
    if entry.Some? then m[entry.value.0 := entry.value.1] else m
  }

  function Apply(w: World, c: Change): World {
    World(Put(w.pending, c.file), Put(w.scopes, c.scope), w.nextId + c.spent, Put(w.hooks, c.hook),
          Put(w.owner, c.mint),
          if c.claim.Some? then w.claims[Attempt(c.claim.value) := c.claim.value] else w.claims,
          if c.event.Some? then Log(w.history, c.event.value) else w.history)
  }

  function Move(h: HookId, hook: Hook): Change {
    NOTHING.(hook := Some((h, hook)))
  }

  function Attempt(record: R.Record): R.Id {
    R.Or(record.attempt, 0)
  }

  predicate Holds(w: World, file: R.Key, record: R.Record) {
    file in w.pending && R.HoldsAttempt(w.pending[file], Attempt(record))
  }

  predicate Unreturned(w: World, file: R.Key, record: R.Record) {
    Holds(w, file, record) && w.pending[file].contextReturnedAt.None?
  }

  function DoQueue(w: World, packet: R.Packet, targets: set<Token>, workstream: string, console: bool,
                   now: int): Change {
    var outcome := R.Queue(w.pending, packet, targets, workstream, console, now, w.nextId);
    if outcome.Written? then
      NOTHING.(file := Some((packet.key, outcome.record)), mint := Some((w.nextId, packet.key)), spent := 2)
    else NOTHING
  }

  function DoClaim(w: World, h: HookId, hook: Hook, file: R.Key, workstream: string, now: int): Change
    requires hook.Ready?
  {
    if file in w.pending && R.Claimable(w.pending[file], hook.candidates, hook.caller.session, now) then
      var record := R.Claimed(w.pending[file], hook.caller, workstream, now, w.nextId);
      if R.OwnClaim(w.pending[file], hook.caller.session) then Move(h, Claimed(record))
      else Move(h, Claimed(record)).(
        file := Some((file, record)), claim := Some(record), spent := 2,
        mint := if w.pending[file].attempt.None? then Some((w.nextId, file)) else None)
    else NOTHING
  }

  function DoSubmit(h: HookId, record: R.Record, accepted: bool, permanent: bool): Change {
    var payload := R.InjectionEventPayload(record, R.Injected);
    if record.contextReturnedAt.Some? then Move(h, Done)
    else if payload.None? then Move(h, Erred(record, false))
    else if !accepted then Move(h, Erred(record, permanent))
    else Move(h, Accepted(record)).(event := Some(Injected(Attempt(record), payload.value)))
  }

  /** The destination check of the scope store, for the packet and session the hook closes over. */
  predicate ExactDestination(record: R.Record, commit: R.Commit) {
    record.console.Some? &&
    var targets := ScopeTokens("", "", "", R.Or(record.session, ""));
    && commit.scope == R.ScopeIdentity(record.key, record.console.value.project, record.console.value.task,
                                       R.Or(record.workstream, ""), targets, commit.scope.session)
    && targets == ScopeTokens("", "", "", commit.scope.session)
    && targets != {}
  }

  ghost function DoPrepare(w: World, h: HookId, record: R.Record, file: R.Key, now: int, at: int): Change {
    if !Unreturned(w, file, record) then Move(h, Done)
    else if w.pending[file].console.None? then Move(h, Erred(record, false))
    else
      var commit := R.CommitOf(w.pending[file], Attempt(record), at);
      if !ExactDestination(record, commit) || !S.IsNextActivation(Effective(w), now, at) then
        Move(h, Erred(record, false))
      else Move(h, Prepared(record, commit)).(scope := Some((S.PreparedKey(commit), S.PreparedScope(commit, now, at))))
  }

  function DoMark(w: World, h: HookId, record: R.Record, file: R.Key, now: int, commit: Option<R.Commit>): Change {
    if Unreturned(w, file, record) then
      Move(h, Marked(record)).(file := Some((file, R.HandedOff(w.pending[file], now, commit))),
                               event := Some(HandedOff(Attempt(record), file, h, commit)))
    else Move(h, Done)
  }

  function DoCancel(w: World, h: HookId, record: R.Record, file: R.Key, code: string): Change {
    if file in w.pending && R.Cancellable(w.pending[file], Attempt(record)) then
      Move(h, Done).(file := Some((file, R.CancelledCopy(w.pending[file], code))),
                     event := Some(Dropped(Attempt(record))))
    else Move(h, Done)
  }

  /** One record reaches a terminal outcome; a failed one starts over under a fresh attempt. */
  function Settle(w: World, file: R.Key, outcome: R.Terminal): Change
    requires file in w.pending
  {
    NOTHING.(file := Some((file, outcome.stored)), spent := 3,
             mint := if outcome.phase == R.Acknowledged then None else Some((w.nextId + 1, file)),
             event := Some(Ended(Attempt(w.pending[file]), outcome.phase, w.pending[file].console.Some?,
                                 R.InjectionEventPayload(outcome.emitted, outcome.phase))))
  }

  function DoFail(w: World, h: HookId, record: R.Record, file: R.Key, code: string, now: int): Change {
    if Holds(w, file, record) && !R.Frozen(w.pending[file]) then
      Settle(w, file, R.Aborted(w.pending[file], code, now, w.nextId)).(hook := Some((h, Done)))
    else Move(h, Done)
  }

  function DoStage(w: World, packet: R.Packet, targets: set<Token>, workstream: string, now: int): Change {
    var k := S.ScopeKey(packet.key, None);
    if packet.project.None? || packet.task.None? || targets == {} || k in w.scopes then NOTHING
    else NOTHING.(scope := Some((k, S.FreshScope(packet, packet.project.value, packet.task.value, targets, workstream,
                                                 now))))
  }

  /** What a step other than an activation does; nothing where it does not apply. */
  ghost function Effect(w: World, s: Step): Change
    requires !s.Activate?
  {
    if s.Queue? then DoQueue(w, s.packet, s.targets, s.workstream, s.console, s.now)
    else if s.StageManual? then DoStage(w, s.packet, TokensOf(s.conversation), s.workstream, s.now)
    else if s.EndTurn? then
      if s.file in w.pending && R.OwnClaim(w.pending[s.file], s.session)
      then Settle(w, s.file, R.Finished(w.pending[s.file], s.success, s.now, w.nextId)) else NOTHING
    else if s.Recover? then
      if s.file in w.pending && w.pending[s.file].status == R.InFlight
      then Settle(w, s.file, R.Aborted(w.pending[s.file], "adapter_restarted", s.now, w.nextId)) else NOTHING
    else if s.Spawn? then
      if s.hook in w.hooks && !w.hooks[s.hook].Done? then NOTHING else Move(s.hook, Ready(s.candidates, s.caller))
    else if s.hook !in w.hooks then NOTHING
    else HookEffect(w, s, s.hook, w.hooks[s.hook])
  }

  /** The program of pre_llm_call, from its claim on. */
  ghost function HookEffect(w: World, s: Step, h: HookId, hook: Hook): Change {
    if s.Die? then Move(h, Done)
    else match hook
      case Ready(_, _) => if s.Claim? then DoClaim(w, h, hook, s.file, s.workstream, s.now) else NOTHING
      case Claimed(r) => if s.Submit? then DoSubmit(h, r, s.accepted, s.permanent) else NOTHING
      case Accepted(r) =>
        if s.Fault? then Move(h, Erred(r, false))
        else if s.Prepare? && r.console.Some? then DoPrepare(w, h, r, s.file, s.now, s.at)
        else if s.Mark? && r.console.None? then DoMark(w, h, r, s.file, s.now, None)
        else NOTHING
      case Prepared(r, commit) =>
        if s.Fault? then Move(h, Erred(r, false))
        else if s.Mark? then DoMark(w, h, r, s.file, s.now, Some(commit))
        else NOTHING
      case Marked(r) => if s.Return? then Move(h, Done).(event := Some(Returned(Attempt(r)))) else NOTHING
      case Erred(r, permanent) =>
        if permanent && r.console.Some? then if s.Cancel? then DoCancel(w, h, r, s.file, s.code) else NOTHING
        else if s.Fail? then DoFail(w, h, r, s.file, s.code, s.now)
        else NOTHING
      case Done => NOTHING
  }

  ghost function Next(w: World, s: Step): World {
    if s.Activate? then
      if S.Chosen(w.scopes, s.candidates, s.now, s.chosen) && S.IsNextActivation(Effective(w), s.now, s.at)
      then w.(scopes := S.Activate(w.scopes, w.pending, s.chosen, s.candidates, s.session, s.at)) else w
    else Apply(w, Effect(w, s))
  }

  ghost function Effective(w: World): S.Bindings {
    S.ActiveBindings(w.scopes, w.pending)
  }

  ghost function Run(w: World, steps: seq<Step>): World
    decreases |steps|
  {
    if steps == [] then w else Run(Next(w, steps[0]), steps[1..])
  }

  // ---------------------------------------------------------------- the invariant

  ghost predicate Orderly(h: History) {
    h == Tally(h.log) && Disciplined(h.log)
  }

  /** What a record keeps from its claim to its terminal outcome. */
  function Essence(record: R.Record): R.Record {
    record.(status := R.InFlight, contextReturnedAt := None, acknowledgedEvent := None, deliveredAt := None,
            scopeCommit := None)
  }

  ghost predicate RecordOk(k: R.Key, r: R.Record, w: World) {
    && r.key == k && r.attempt.Some? && r.injectionEvent.Some? && r.injectionMethod.Some? && r.workstream.Some?
    && var a := r.attempt.value;
    && a in w.owner && w.owner[a] == k
    && (a in w.history.ended <==> r.status in {R.Delivered, R.Cancelled})
    && (r.scopeCommit.Some? && r.scopeCommit.value.attempt == a ==> a in w.history.handed)
    && match r.status
       case Pending => a !in w.claims && r.contextReturnedAt.None? && r.acknowledgedEvent.None? && r.failedEvent.None?
       case Cancelled => r.console.None? && a !in w.history.handed
       case _ =>
         && a in w.claims && Essence(r) == Essence(w.claims[a])
         && (r.contextReturnedAt.Some? <==> a in w.history.handed)
         && (r.status == R.Delivered ==> !R.HandoffMissing(r))
  }

  ghost predicate HookOk(h: HookId, hook: Hook, w: World) {
    hook.Ready? || hook.Done? ||
    (&& hook.record.attempt.Some?
     && var a := hook.record.attempt.value;
     && a in w.claims && Essence(hook.record) == Essence(w.claims[a])
     && (hook.Accepted? || hook.Prepared? || hook.Marked? ==> a in w.history.accepted)
     && (hook.Prepared? ==> hook.commit.attempt == a && hook.record.console.Some?
                            && hook.commit.scope == R.CommitOf(w.claims[a], a, 0).scope
                            && hook.commit.scope.targets == {SessionToken(hook.commit.scope.session)}
                            && S.PreparedKey(hook.commit) in w.scopes)
     && (hook.Marked? ==> a in w.history.handed && w.history.handed[a] == h && a !in w.history.returned))
  }

  ghost predicate IdsOk(w: World) {
    && (forall a :: a in w.owner ==> a < w.nextId)
    && (forall a :: a in w.claims ==> a in w.owner && w.claims[a].key == w.owner[a] && w.claims[a].attempt == Some(a)
                                      && R.CompleteClaim(w.claims[a]) && w.claims[a].key in w.pending)
    && w.history.accepted <= w.claims.Keys && w.history.handed.Keys <= w.claims.Keys
    && w.history.ended <= w.claims.Keys && w.history.returned <= w.history.handed.Keys
  }

  /** The fields every payload of an attempt takes from its claim. */
  ghost predicate FromClaim(payload: R.Payload, claim: R.Record) {
    && claim.attempt == Some(payload.attempt) && claim.key.version == payload.version
    && claim.serverSession == Some(payload.session) && claim.turn == Some(payload.turn)
    && claim.workstream == Some(payload.workstream) && claim.injectionMethod == Some(payload.injectionMethod)
  }

  ghost predicate EventOk(e: Event, claims: map<R.Id, R.Record>) {
    match e
    case Injected(a, payload) => a in claims && Some(payload) == R.InjectionEventPayload(claims[a], R.Injected)
    case Ended(a, phase, _, report) =>
      a in claims && report.Some? && report.value.phase == phase && FromClaim(report.value, claims[a])
      && phase in {R.Acknowledged, R.Failed}
    case HandedOff(a, k, _, commit) =>
      a in claims && k == claims[a].key && (commit.Some? <==> claims[a].console.Some?)
      && (commit.Some? ==> commit.value.attempt == a && commit.value.scope == R.CommitOf(claims[a], a, 0).scope)
    case _ => true
  }

  /** The commit of the last hand-off of a Resume that bound a scope. */
  ghost function LastCommit(log: seq<Event>, k: R.Key): Option<R.Commit> {
    if log == [] then None
    else
      var e := log[|log| - 1];
      if e.HandedOff? && e.key == k && e.commit.Some? then e.commit else LastCommit(log[..|log| - 1], k)
  }

  /** A prepared file carries the identity its attempt was claimed for, and gives way only after its commit. */
  ghost predicate ScopeOk(k: S.ScopeKey, scope: S.Scope, w: World) {
    k.attempt.Some? ==>
      var a := k.attempt.value;
      && a in w.claims && w.claims[a].key == k.resume && w.claims[a].console.Some?
      && S.Identity(scope) == Some(R.CommitOf(w.claims[a], a, 0).scope)
      && (scope.status == S.Superseded ==> a in w.history.handed)
  }

  /** A committed hand-off has its file, and its attempt was handed off. */
  ghost predicate CommitOk(k: R.Key, r: R.Record, w: World) {
    r.scopeCommit.Some? ==>
      var c := r.scopeCommit.value;
      && c.attempt in w.claims && w.claims[c.attempt].console.Some? && c.attempt in w.history.handed
      && w.claims[c.attempt].key == k && c.scope == R.CommitOf(w.claims[c.attempt], c.attempt, 0).scope
      && S.PreparedKey(c) in w.scopes
  }

  ghost predicate RecordsOk(w: World) { forall k :: k in w.pending ==> RecordOk(k, w.pending[k], w) }
  ghost predicate HooksOk(w: World) { forall h :: h in w.hooks ==> HookOk(h, w.hooks[h], w) }
  ghost predicate EventsOk(w: World) {
    forall i :: 0 <= i < |w.history.log| ==> EventOk(w.history.log[i], w.claims)
  }
  ghost predicate CommitsOk(w: World) {
    && (forall k :: k in w.pending ==>
          w.pending[k].scopeCommit == LastCommit(w.history.log, k) && CommitOk(k, w.pending[k], w))
    && (forall k :: k !in w.pending ==> LastCommit(w.history.log, k).None?)
  }
  ghost predicate ScopesOk(w: World) {
    S.Valid(w.scopes) && forall k :: k in w.scopes ==> ScopeOk(k, w.scopes[k], w)
  }

  ghost predicate Inv(w: World) {
    IdsOk(w) && Orderly(w.history) && RecordsOk(w) && HooksOk(w) && EventsOk(w) && CommitsOk(w) && ScopesOk(w)
  }
}
