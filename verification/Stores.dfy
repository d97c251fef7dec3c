/**
  The two durable stores as objects. Every method is one critical section: the pending store runs it
  under the directory lock. The clock is read once per file and may run backwards.
 */
module Stores {
  import opened Wrappers
  import opened Tokens
  import R = Resume
  import S = Scopes

  /** The reading taken while each file is handled. */
  type Clock = map<R.Key, int>

  function At(clock: Clock, file: R.Key): int {
    if file in clock then clock[file] else 0
  }

  /** A listing names every file once; the source sorts it by name, here every order is covered. */
  ghost predicate Listing<K(!new), V>(files: seq<K>, dir: map<K, V>) {
    Distinct(files) && forall k :: k in files <==> k in dir
  }

  ghost predicate Distinct<K>(files: seq<K>) {
    forall i, j :: 0 <= i < j < |files| ==> files[i] != files[j]
  }

  method List<K(==,!new), V>(dir: map<K, V>) returns (files: seq<K>)
    ensures Listing(files, dir)
  {
    files := [];
    var rest := dir.Keys;
    while rest != {}
      invariant Distinct(files)
      invariant forall k :: k in dir <==> k in files || k in rest
      invariant forall k :: k in files ==> k !in rest
      decreases |rest|
    {
      var k :| k in rest;
      files := files + [k];
      rest := rest - {k};
    }
  }

  /** The two passes that end attempts: the end of a session's turn, and a restart. */
  datatype Pass = TurnEnd(session: string, success: bool) | Restart {
    predicate Ends(record: R.Record) {
      match this
      case TurnEnd(session, _) => R.OwnClaim(record, session)
      case Restart => record.status == R.InFlight
    }

    function Outcome(record: R.Record, at: int, id: R.Id): R.Terminal {
      match this
      case TurnEnd(_, success) => R.Finished(record, success, at, id)
      case Restart => R.Aborted(record, "adapter_restarted", at, id)
    }
  }

  /** The store while a pass walks over its files, and what it has emitted. */
  datatype Batch = Batch(dir: R.Directory, nextId: R.Id, outcomes: seq<R.Terminal>)

  function SettleOne(batch: Batch, file: R.Key, pass: Pass, at: int): Batch {
    if file in batch.dir && pass.Ends(batch.dir[file]) then
      var outcome := pass.Outcome(batch.dir[file], at, batch.nextId);
      Batch(batch.dir[file := outcome.stored], batch.nextId + 3, batch.outcomes + [outcome])
    else
      batch
  }

  function SettleAll(batch: Batch, files: seq<R.Key>, pass: Pass, clock: Clock): Batch
    decreases |files|
  {
    if files == [] then batch
    else SettleAll(SettleOne(batch, files[0], pass, At(clock, files[0])), files[1..], pass, clock)
  }

  /**
    A pass over distinct files ends exactly the records it is for: each of them once, with fresh
    identifiers and the outcome of the record it found; every other file is left alone.
   */
  lemma {:induction false} SettleAllAt(batch: Batch, files: seq<R.Key>, pass: Pass, clock: Clock, k: R.Key)
    requires Distinct(files)
    ensures var after := SettleAll(batch, files, pass, clock);
      && batch.nextId <= after.nextId && (k in after.dir <==> k in batch.dir)
      && batch.outcomes <= after.outcomes
      && (k in batch.dir && (k !in files || !pass.Ends(batch.dir[k])) ==> after.dir[k] == batch.dir[k])
      && (k in batch.dir && k in files && pass.Ends(batch.dir[k]) ==>
            exists id :: batch.nextId <= id && id + 3 <= after.nextId &&
              var outcome := pass.Outcome(batch.dir[k], At(clock, k), id);
              after.dir[k] == outcome.stored && outcome in after.outcomes[|batch.outcomes|..])
    decreases |files|
  {
    if files != [] {
      var next := SettleOne(batch, files[0], pass, At(clock, files[0]));
      SettleAllAt(next, files[1..], pass, clock, k);
      var after := SettleAll(batch, files, pass, clock);
      if k == files[0] {
        assert k !in files[1..];
        if k in batch.dir && pass.Ends(batch.dir[k]) {
          assert next.outcomes[|batch.outcomes|] == after.outcomes[|batch.outcomes|];
          assert after.outcomes[|batch.outcomes|..][0] == next.outcomes[|batch.outcomes|];
        }
      } else if k in batch.dir && k in files && pass.Ends(batch.dir[k]) {
        assert k in files[1..] && next.dir[k] == batch.dir[k];
        var id :| next.nextId <= id && id + 3 <= after.nextId &&
          var outcome := pass.Outcome(batch.dir[k], At(clock, k), id);
          after.dir[k] == outcome.stored && outcome in after.outcomes[|next.outcomes|..];
        assert forall x :: x in after.outcomes[|next.outcomes|..] ==> x in after.outcomes[|batch.outcomes|..];
      }
    }
  }

  /** The files whose records a pass ends, in the order of the listing. */
  function Ending(dir: R.Directory, files: seq<R.Key>, pass: Pass): (ending: seq<R.Key>)
    ensures forall k :: k in ending <==> k in files && k in dir && pass.Ends(dir[k])
    ensures Distinct(files) ==> Distinct(ending)
  {
    if files == [] then []
    else
      var rest := Ending(dir, files[1..], pass);
      if files[0] in dir && pass.Ends(dir[files[0]]) then [files[0]] + rest else rest
  }

  /** The outcomes of these records, with identifiers from this one on. */
  function OutcomesOf(dir: R.Directory, ending: seq<R.Key>, pass: Pass, clock: Clock, id: R.Id)
    : (outcomes: seq<R.Terminal>)
    requires forall k :: k in ending ==> k in dir
    ensures |outcomes| == |ending|
  {
    if ending == [] then []
    else
      [pass.Outcome(dir[ending[0]], At(clock, ending[0]), id)] + OutcomesOf(dir, ending[1..], pass, clock, id + 3)
  }

  /** The outcomes are those of the ended records, one for each, in the order of the listing, and no others. */
  lemma {:induction false} SettleAllOutcomes(batch: Batch, files: seq<R.Key>, pass: Pass, clock: Clock)
    requires Distinct(files)
    ensures var after, ending := SettleAll(batch, files, pass, clock), Ending(batch.dir, files, pass);
      && after.outcomes == batch.outcomes + OutcomesOf(batch.dir, ending, pass, clock, batch.nextId)
      && after.nextId == batch.nextId + 3 * |ending|
    decreases |files|
  {
    if files != [] {
      var k, rest := files[0], Ending(batch.dir, files[1..], pass);
      var next := SettleOne(batch, k, pass, At(clock, k));
      assert k !in files[1..];
      SettleAllOutcomes(next, files[1..], pass, clock);
      EndingElsewhere(batch.dir, next.dir, files[1..], pass);
      OutcomesElsewhere(batch.dir, next.dir, rest, pass, clock, next.nextId);
      var outcomes := OutcomesOf(batch.dir, rest, pass, clock, next.nextId);
      assert SettleAll(batch, files, pass, clock).outcomes == next.outcomes + outcomes;
      if k in batch.dir && pass.Ends(batch.dir[k]) {
        FirstOutcome(batch, k, rest, pass, clock);
      }
    }
  }

  lemma FirstOutcome(batch: Batch, k: R.Key, rest: seq<R.Key>, pass: Pass, clock: Clock)
    requires k in batch.dir && pass.Ends(batch.dir[k]) && forall j :: j in rest ==> j in batch.dir
    ensures var next := SettleOne(batch, k, pass, At(clock, k));
      next.outcomes + OutcomesOf(batch.dir, rest, pass, clock, next.nextId)
        == batch.outcomes + OutcomesOf(batch.dir, [k] + rest, pass, clock, batch.nextId)
  {
    assert ([k] + rest)[1..] == rest;
  }

  /** The i-th of them is the outcome of the i-th record, as the pass found it. */
  lemma {:induction false} OutcomeAt(dir: R.Directory, ending: seq<R.Key>, pass: Pass, clock: Clock, id: R.Id, i: nat)
    requires i < |ending| && forall k :: k in ending ==> k in dir
    ensures OutcomesOf(dir, ending, pass, clock, id)[i]
      == pass.Outcome(dir[ending[i]], At(clock, ending[i]), id + 3 * i)
  {
    if i > 0 {
      OutcomeAt(dir, ending[1..], pass, clock, id + 3, i - 1);
    }
  }

  lemma {:induction false} OutcomesElsewhere(dir: R.Directory, dir': R.Directory, ending: seq<R.Key>, pass: Pass,
                                             clock: Clock, id: R.Id)
    requires forall k :: k in ending ==> k in dir && k in dir' && dir'[k] == dir[k]
    ensures OutcomesOf(dir, ending, pass, clock, id) == OutcomesOf(dir', ending, pass, clock, id)
  {
    if ending != [] {
      OutcomesElsewhere(dir, dir', ending[1..], pass, clock, id + 3);
    }
  }

  lemma {:induction false} EndingElsewhere(dir: R.Directory, dir': R.Directory, files: seq<R.Key>, pass: Pass)
    requires forall k :: k in files ==> (k in dir <==> k in dir') && (k in dir ==> dir'[k] == dir[k])
    ensures Ending(dir, files, pass) == Ending(dir', files, pass)
  {
    if files != [] {
      EndingElsewhere(dir, dir', files[1..], pass);
    }
  }

  predicate Acceptable(packet: R.Packet, targets: set<Token>, console: bool) {
    packet.key.version >= 1 && targets != {} && (console ==> packet.project.Some? && packet.task.Some?)
  }

  datatype MarkResult = Marked | NotMarked | Raised

  class PendingResumeStore {
    var records: R.Directory
    var nextId: R.Id
    const workstream: string

    constructor (workstream: string)
      ensures records == map[] && this.workstream == workstream
    {
      this.workstream := workstream;
      records, nextId := map[], 0;
    }

    /**
      A copy that is waiting, in flight or delivered is kept, unless it has expired and the Console confirms it
      again; otherwise a fresh attempt is written, which carries over the scope that an earlier one committed.
     */
    method Queue(packet: R.Packet, targets: set<Token>, workstream: Option<string>, console: bool, now: int)
      returns (outcome: R.QueueOutcome)
      modifies this
      ensures outcome == R.Queue(old(records), packet, targets, R.Or(workstream, this.workstream), console, now,
                                 old(nextId))
      ensures !outcome.Written? ==> records == old(records) && nextId == old(nextId)
      ensures outcome.Kept? <==>
        && Acceptable(packet, targets, console) && packet.key in old(records)
        && old(records)[packet.key].status != R.Cancelled && !R.Renewable(old(records)[packet.key], console, now)
      ensures outcome.Kept? ==> outcome.record == old(records)[packet.key]
      ensures outcome.Written? ==>
        && Acceptable(packet, targets, console) && packet.text.Some? && nextId == old(nextId) + 2
        && records == old(records)[packet.key := outcome.record]
        && var record := outcome.record;
        && record.status == R.Pending && record.attempt == Some(old(nextId))
        && record.injectionEvent == Some(old(nextId) + 1)
        && record.targets == targets && record.text == packet.text && record.contextReturnedAt.None?
        && (record.console.Some? <==> console) && !R.Expired(record, now)
        && record.scopeCommit == if packet.key in old(records) then old(records)[packet.key].scopeCommit else None
      ensures forall k :: k in old(records) && old(records)[k].status in {R.InFlight, R.Delivered} ==>
        k in records && records[k] == old(records)[k]
    {
      var scope := R.PacketScope(packet, console);
      if packet.key.version < 1 || targets == {} || (console && scope.None?) {
        return R.Rejected;
      }
      var prior: Option<R.Commit> := None;
      if packet.key in records {
        var existing := records[packet.key];
        if existing.status != R.Cancelled && !R.Renewable(existing, console, now) {
          return R.Kept(existing);
        }
        prior := existing.scopeCommit;
      }
      if packet.text.None? {
        return R.Rejected;
      }
      var record := R.FreshRecord(packet, packet.text.value, targets, R.Or(workstream, this.workstream), console, prior,
                                  now, nextId);
      records := records[packet.key := record];
      nextId := nextId + 2;
      outcome := R.Written(record);
    }

    /** Some claim is returned exactly when some record is claimable, and only its own file changes. */
    method Claim(candidates: set<Token>, caller: R.Caller, clock: Clock)
      returns (claim: Option<R.Record>, ghost file: R.Key)
      modifies this
      ensures claim.None? ==> records == old(records) && nextId == old(nextId) &&
                              forall k :: k in records ==>
                                !R.Claimable(records[k], candidates, caller.session, At(clock, k))
      ensures claim.Some? ==>
        && file in old(records) && R.Claimable(old(records)[file], candidates, caller.session, At(clock, file))
        && claim.value == R.Claimed(old(records)[file], caller, workstream, At(clock, file), old(nextId))
        && records == old(records)[file := claim.value]
        && nextId == old(nextId) + 2
    {
      file := *;
      var files := List(records);
      var i := 0;
      while i < |files|
        invariant 0 <= i <= |files|
        invariant records == old(records) && nextId == old(nextId)
        invariant forall j :: 0 <= j < i ==> !R.Claimable(records[files[j]], candidates, caller.session,
                                                          At(clock, files[j]))
      {
        var target := files[i];
        var record := records[target];
        file := target;
        i := i + 1;
        if record.status == R.Delivered || R.Expired(record, At(clock, target)) {
          continue;
        }
        if !R.OwnClaim(record, caller.session) && (record.status != R.Pending || candidates * record.targets == {}) {
          continue;
        }
        claim := Some(R.Claimed(record, caller, workstream, At(clock, target), nextId));
        records := records[target := claim.value];
        nextId := nextId + 2;
        return;
      }
      claim := None;
    }

    method CancelConsoleAuthorization(attempt: R.Id, code: string) returns (cancelled: bool, ghost file: R.Key)
      modifies this
      ensures nextId == old(nextId)
      ensures cancelled ==> file in old(records) && R.Cancellable(old(records)[file], attempt) &&
                            records == old(records)[file := R.CancelledCopy(old(records)[file], code)]
      ensures !cancelled ==>
        && records == old(records)
        && ((forall k :: k in records ==> !R.Cancellable(records[k], attempt)) ||
         exists k :: k in records && records[k].attempt == Some(attempt) && records[k].contextReturnedAt.Some?)
    {
      file := *;
      var files := List(records);
      var i := 0;
      while i < |files|
        invariant 0 <= i <= |files| && records == old(records) && nextId == old(nextId)
        invariant forall j :: 0 <= j < i ==> !R.Cancellable(records[files[j]], attempt)
      {
        var target := files[i];
        var record := records[target];
        file := target;
        i := i + 1;
        if record.attempt != Some(attempt) || record.console.None? {
          continue;
        }
        if record.contextReturnedAt.Some? {
          return false, file;
        }
        records := records[target := R.CancelledCopy(record, code)];
        return true, file;
      }
      cancelled := false;
    }

    method Fail(attempt: R.Id, code: string, clock: Clock) returns (failed: Option<R.Terminal>, ghost file: R.Key)
      modifies this
      ensures failed.Some? ==>
        && file in old(records) && R.HoldsAttempt(old(records)[file], attempt) && !R.Frozen(old(records)[file])
        && failed.value == R.Aborted(old(records)[file], code, At(clock, file), old(nextId))
        && records == old(records)[file := failed.value.stored] && nextId == old(nextId) + 3
      ensures failed.None? ==>
        && records == old(records) && nextId == old(nextId)
        && ((forall k :: k in records ==> !R.HoldsAttempt(records[k], attempt)) ||
         exists k :: k in records && R.HoldsAttempt(records[k], attempt) && R.Frozen(records[k]))
    {
      file := *;
      var files := List(records);
      var i := 0;
      while i < |files|
        invariant 0 <= i <= |files| && records == old(records) && nextId == old(nextId)
        invariant forall j :: 0 <= j < i ==> !R.HoldsAttempt(records[files[j]], attempt)
      {
        var target := files[i];
        var record := records[target];
        file := target;
        i := i + 1;
        if record.status != R.InFlight || record.attempt != Some(attempt) {
          continue;
        }
        if record.console.Some? && record.contextReturnedAt.Some? {
          return None, file;
        }
        var outcome := R.Aborted(record, code, At(clock, target), nextId);
        records := records[target := outcome.stored];
        nextId := nextId + 3;
        return Some(outcome), file;
      }
      failed := None;
    }

    /** The loop that ends of turns and restarts share: one pass over the files. */
    method Settle(pass: Pass, clock: Clock) returns (outcomes: seq<R.Terminal>, ghost files: seq<R.Key>)
      modifies this
      ensures Listing(files, old(records))
      ensures Batch(records, nextId, outcomes) == SettleAll(Batch(old(records), old(nextId), []), files, pass, clock)
    {
      var names := List(records);
      outcomes, files := [], names;
      var i := 0;
      while i < |names|
        invariant 0 <= i <= |names|
        invariant SettleAll(Batch(records, nextId, outcomes), names[i..], pass, clock)
               == SettleAll(Batch(old(records), old(nextId), []), names, pass, clock)
      {
        var target := names[i];
        assert names[i..][1..] == names[i + 1..];
        var batch := SettleOne(Batch(records, nextId, outcomes), target, pass, At(clock, target));
        records, nextId, outcomes := batch.dir, batch.nextId, batch.outcomes;
        i := i + 1;
      }
    }

    /** Ends the in-flight records of the session. */
    method Finish(session: string, success: bool, clock: Clock)
      returns (finished: seq<R.Terminal>, ghost files: seq<R.Key>)
      modifies this
      ensures Listing(files, old(records))
      ensures Batch(records, nextId, finished)
           == SettleAll(Batch(old(records), old(nextId), []), files, TurnEnd(session, success), clock)
    {
      finished, files := Settle(TurnEnd(session, success), clock);
    }

    /** Startup recovery fails every in-flight attempt, whatever it had reached. */
    method RecoverInFlight(clock: Clock) returns (recovered: seq<R.Terminal>, ghost files: seq<R.Key>)
      modifies this
      ensures Listing(files, old(records))
      ensures Batch(records, nextId, recovered)
           == SettleAll(Batch(old(records), old(nextId), []), files, Restart, clock)
    {
      recovered, files := Settle(Restart, clock);
    }

    /**
      Prepare the scope and commit it with the once-only hand-off, in this order. Raised stands for a
      refused preparation, which leaves both directories as they were.
     */
    method MarkContextReturned(attempt: R.Id, prepare: Option<Preparation>, now: int)
      returns (result: MarkResult, ghost file: R.Key, ghost commit: Option<R.Commit>)
      requires prepare.Some? ==> prepare.value.scopes.pending == this
      modifies this, if prepare.Some? then {prepare.value.scopes} else {}
      ensures nextId == old(nextId)
      ensures result != Marked ==>
        records == old(records) && (prepare.Some? ==> prepare.value.scopes.scopes == old(prepare.value.scopes.scopes))
      ensures result == Raised ==>
        && file in records && R.HoldsAttempt(records[file], attempt) && records[file].contextReturnedAt.None?
        && prepare.Some? && !Preparable(records[file], attempt, prepare.value)
      ensures result == NotMarked ==>
        ((forall k :: k in records ==> !R.HoldsAttempt(records[k], attempt)) ||
         exists k :: k in records && R.HoldsAttempt(records[k], attempt) && records[k].contextReturnedAt.Some?)
      ensures result == Marked ==>
        && file in old(records) && R.HoldsAttempt(old(records)[file], attempt)
        && old(records)[file].contextReturnedAt.None?
        && records == old(records)[file := R.HandedOff(old(records)[file], now, commit)]
        && (commit.Some? <==> prepare.Some?)
        && (prepare.Some? ==> Preparable(old(records)[file], attempt, prepare.value))
      ensures result == Marked && prepare.Some? ==>
        && old(records)[file].console.Some?
        && commit == Some(R.CommitOf(old(records)[file], attempt, commit.value.committedAt))
        && commit.value.scope.targets == ScopeTokens("", "", "", commit.value.scope.session)
        && S.IsNextActivation(S.ActiveBindings(old(prepare.value.scopes.scopes), old(records)), now,
                              commit.value.committedAt)
        && prepare.value.scopes.scopes == old(prepare.value.scopes.scopes)
             [S.PreparedKey(commit.value) := S.PreparedScope(commit.value, now, commit.value.committedAt)]
    {
      file, commit := *, None;
      var files := List(records);
      var i := 0;
      while i < |files|
        invariant 0 <= i <= |files| && records == old(records) && nextId == old(nextId)
        invariant prepare.Some? ==> prepare.value.scopes.scopes == old(prepare.value.scopes.scopes)
        invariant commit == None
        invariant forall j :: 0 <= j < i ==> !R.HoldsAttempt(records[files[j]], attempt)
      {
        var target := files[i];
        var record := records[target];
        file := target;
        i := i + 1;
        if record.status != R.InFlight || record.attempt != Some(attempt) {
          continue;
        }
        if record.contextReturnedAt.Some? {
          return NotMarked, file, None;
        }
        var committed: Option<R.Commit> := None;
        if prepare.Some? {
          if record.console.None? {
            return Raised, file, None;
          }
          var prepared := R.CommitOf(record, attempt, now);
          var staged := prepare.value.scopes.Stage(prepare.value.packet, prepare.value.targets,
                                                   prepare.value.workstream, Some(prepared), now);
          if staged.None? {
            return Raised, file, None;
          }
          committed := Some(prepared.(committedAt := R.Or(staged.value.preparedAt, now)));
        }
        records := records[target := R.HandedOff(record, now, committed)];
        return Marked, file, committed;
      }
      result := NotMarked;
    }
  }

  /** A packet that can be staged, and for a hand-off only to its exact destination. */
  predicate Stageable(packet: R.Packet, targets: set<Token>, workstream: string, scope: Option<R.ScopeIdentity>) {
    && packet.key.version >= 1 && packet.project.Some? && packet.task.Some? && targets != {}
    && (scope.Some? ==>
          && scope.value == R.ScopeIdentity(packet.key, packet.project.value, packet.task.value, workstream, targets,
                                            scope.value.session)
          && targets == ScopeTokens("", "", "", scope.value.session))
  }

  /** The preparation goes through for this record: it is a Console copy, and the destination is its own. */
  predicate Preparable(record: R.Record, attempt: R.Id, prepare: Preparation) {
    && record.console.Some?
    && Stageable(prepare.packet, prepare.targets, prepare.workstream, Some(R.CommitOf(record, attempt, 0).scope))
  }

  /** What pre_llm_call closes over when it hands a Console packet's binding to the scope store. */
  datatype Preparation = Preparation(scopes: TaskScopeStore, packet: R.Packet, targets: set<Token>, workstream: string)

  /** The files of a listing give way, one by one, to the binding chosen. */
  function YieldAll(dir: S.Directory, files: seq<S.ScopeKey>, pending: R.Directory, target: S.ScopeKey, chosen: S.Scope,
                    candidates: set<Token>): S.Directory
    decreases |files|
  {
    if files == [] then dir
    else
      var k := files[0];
      var next := if k in dir && k != target && S.GivesWay(S.Read(dir[k], pending), chosen, candidates)
                  then dir[k := S.GivenWay(S.Read(dir[k], pending), chosen)] else dir;
      YieldAll(next, files[1..], pending, target, chosen, candidates)
  }

  lemma {:induction false} YieldAllAt(dir: S.Directory, files: seq<S.ScopeKey>, pending: R.Directory,
                                      target: S.ScopeKey, chosen: S.Scope, candidates: set<Token>, k: S.ScopeKey)
    requires Distinct(files) && k in dir
    ensures var after := YieldAll(dir, files, pending, target, chosen, candidates);
      && after.Keys == dir.Keys
      && after[k] == if k in files && k != target then S.Yielded(dir[k], pending, chosen, candidates) else dir[k]
    decreases |files|
  {
    if files != [] {
      var j := files[0];
      var next := if j in dir && j != target && S.GivesWay(S.Read(dir[j], pending), chosen, candidates)
                  then dir[j := S.GivenWay(S.Read(dir[j], pending), chosen)] else dir;
      assert j !in files[1..];
      YieldAllAt(next, files[1..], pending, target, chosen, candidates, k);
    }
  }

  lemma YieldAllActivates(dir: S.Directory, files: seq<S.ScopeKey>, pending: R.Directory, target: S.ScopeKey,
                          candidates: set<Token>, session: string, at: int)
    requires Listing(files, dir) && target in dir
    ensures YieldAll(dir, files, pending, target, dir[target], candidates)[target :=
          S.Activated(dir[target], candidates, session, at)]
         == S.Activate(dir, pending, target, candidates, session, at)
  {
    var after := YieldAll(dir, files, pending, target, dir[target], candidates);
    YieldAllAt(dir, files, pending, target, dir[target], candidates, target);
    forall k | k in dir
      ensures k in after && after[k] == if k != target then
        S.Yielded(dir[k], pending, dir[target], candidates) else dir[k]
    {
      YieldAllAt(dir, files, pending, target, dir[target], candidates, k);
    }
  }

  class TaskScopeStore {
    var scopes: S.Directory
    const pending: PendingResumeStore

    constructor (pending: PendingResumeStore)
      ensures scopes == map[] && this.pending == pending
    {
      this.pending := pending;
      scopes := map[];
    }

    ghost function Bindings(): S.Bindings
      reads this, pending
    {
      S.ActiveBindings(scopes, pending.records)
    }

    /** Strictly after every active binding, even when the clock stands still or runs backwards. */
    method NextActivationTime(now: int) returns (at: int)
      ensures S.IsNextActivation(Bindings(), now, at)
    {
      var files := List(scopes);
      at := now;
      for i := 0 to |files|
        invariant forall j :: 0 <= j < i && files[j] in Bindings() ==> S.ActivationTime(Bindings()[files[j]]) < at
        invariant at == now || (at > now && exists k :: k in Bindings() && at == S.ActivationTime(Bindings()[k]) + 1)
      {
        var row := S.Read(scopes[files[i]], pending.records);
        if row.status == S.Active && at <= S.ActivationTime(row) {
          assert files[i] in Bindings();
          at := S.ActivationTime(row) + 1;
        }
      }
    }

    /**
      A manual binding waits for the next turn and is kept if it is already there; a prepared one is
      written anew under its attempt, and only for the exact destination of the hand-off.
     */
    method Stage(packet: R.Packet, targets: set<Token>, workstream: string, handoff: Option<R.Commit>, now: int)
      returns (staged: Option<S.Scope>)
      modifies this
      ensures staged.Some? <==> Stageable(packet, targets, workstream,
                                          if handoff.Some? then Some(handoff.value.scope) else None)
      ensures staged.None? ==> scopes == old(scopes)
      ensures handoff.None? && staged.Some? ==> var k := S.ScopeKey(packet.key, None);
        if k in old(scopes) then scopes == old(scopes) && staged.value == S.Read(old(scopes)[k], pending.records)
        else packet.project.Some? && packet.task.Some? && targets != {} && scopes == old(scopes)[k := staged.value] &&
             staged.value == S.FreshScope(packet, packet.project.value, packet.task.value, targets, workstream, now)
      ensures handoff.Some? && staged.Some? ==>
        && handoff.value.scope == R.ScopeIdentity(packet.key, R.Or(packet.project, ""), R.Or(packet.task, ""),
                                                  workstream, targets, handoff.value.scope.session)
        && targets == ScopeTokens("", "", "", handoff.value.scope.session)
        && staged.value.preparedAt.Some?
        && S.IsNextActivation(old(Bindings()), now, staged.value.preparedAt.value)
        && staged.value == S.PreparedScope(handoff.value, now, staged.value.preparedAt.value)
        && scopes == old(scopes)[S.PreparedKey(handoff.value) := staged.value]
    {
      if packet.key.version < 1 || packet.project.None? || packet.task.None? || targets == {} {
        return None;
      }
      if handoff.Some? {
        var scope := handoff.value.scope;
        var expected := R.ScopeIdentity(packet.key, packet.project.value, packet.task.value, workstream, targets,
                                        scope.session);
        if scope != expected || targets != ScopeTokens("", "", "", scope.session) {
          return None;
        }
        var preparedAt := NextActivationTime(now);
        var record := S.PreparedScope(handoff.value, now, preparedAt);
        scopes := scopes[S.PreparedKey(handoff.value) := record];
        return Some(record);
      }
      var target := S.ScopeKey(packet.key, None);
      if target in scopes {
        return Some(S.Read(scopes[target], pending.records));
      }
      var record := S.FreshScope(packet, packet.project.value, packet.task.value, targets, workstream, now);
      scopes := scopes[target := record];
      return Some(record);
    }

    /** The newest matching binding, if any matches. */
    method Resolve(candidates: set<Token>) returns (binding: Option<S.Scope>)
      ensures binding.None? <==> S.Winners(Bindings(), candidates) == {}
      ensures binding.Some? ==> exists k :: k in S.Winners(Bindings(), candidates) && binding.value == Bindings()[k]
    {
      var files := List(scopes);
      binding := None;
      ghost var best: S.ScopeKey := *;
      for i := 0 to |files|
        invariant binding.Some? ==>
          best in Bindings() && binding.value == Bindings()[best] && S.Binds(binding.value, candidates)
        invariant forall j :: 0 <= j < i && files[j] in Bindings() && S.Binds(Bindings()[files[j]], candidates) ==>
          binding.Some? && S.ActivationTime(Bindings()[files[j]]) <= S.ActivationTime(binding.value)
      {
        var record := S.Read(scopes[files[i]], pending.records);
        if record.status == S.Active && TokensMatch(S.BindingTokens(record, true), candidates) {
          if binding.None? || S.ActivationTime(binding.value) < S.ActivationTime(record) {
            binding, best := Some(record), files[i];
          }
        }
      }
      if binding.Some? {
        assert best in S.Winners(Bindings(), candidates);
      }
    }

    /** The matching waiting binding created last. */
    method NewestWaiting(candidates: set<Token>, now: int) returns (chosen: Option<S.ScopeKey>)
      ensures chosen.None? <==> forall k :: k in scopes ==> !S.Waits(scopes[k], candidates, now)
      ensures chosen.Some? ==> S.Chosen(scopes, candidates, now, chosen.value)
    {
      var files := List(scopes);
      chosen := None;
      for i := 0 to |files|
        invariant chosen.Some? ==> chosen.value in scopes && S.Waits(scopes[chosen.value], candidates, now)
        invariant forall j :: 0 <= j < i && S.Waits(scopes[files[j]], candidates, now) ==>
          chosen.Some? && scopes[files[j]].createdAt <= scopes[chosen.value].createdAt
      {
        var record := scopes[files[i]];
        if S.Waits(record, candidates, now) && (chosen.None? || scopes[chosen.value].createdAt < record.createdAt) {
          chosen := Some(files[i]);
        }
      }
    }

    /** Every other binding that gives way is superseded, then the chosen one is made active. */
    method Switch(target: S.ScopeKey, candidates: set<Token>, session: string, at: int)
      requires target in scopes
      modifies this
      ensures scopes == S.Activate(old(scopes), pending.records, target, candidates, session, at)
    {
      var record := scopes[target];
      var files := List(scopes);
      var i := 0;
      while i < |files|
        invariant 0 <= i <= |files| && scopes.Keys == old(scopes).Keys
        invariant YieldAll(scopes, files[i..], pending.records, target, record, candidates)
               == YieldAll(old(scopes), files, pending.records, target, record, candidates)
      {
        assert files[i..][1..] == files[i + 1..];
        var other := S.Read(scopes[files[i]], pending.records);
        if files[i] != target && S.GivesWay(other, record, candidates) {
          scopes := scopes[files[i] := S.GivenWay(other, record)];
        }
        i := i + 1;
      }
      YieldAllActivates(old(scopes), files, pending.records, target, candidates, session, at);
      scopes := scopes[target := S.Activated(record, candidates, session, at)];
    }

    /**
      Activate the newest matching waiting binding; whichever binding comes back, it is an answer that
      resolve gives to the same list right afterwards, and after an activation the only one.
     */
    method Activate(candidates: set<Token>, session: string, now: int)
      returns (binding: Option<S.Scope>, ghost chosen: Option<S.ScopeKey>, ghost at: int)
      requires S.Valid(scopes)
      modifies this
      ensures S.Valid(scopes) && (S.OneSessionEach(old(scopes)) ==> S.OneSessionEach(scopes))
      ensures chosen.None? ==> scopes == old(scopes) && forall k :: k in scopes ==> !S.Waits(scopes[k], candidates, now)
      ensures chosen.Some? ==>
        && S.Chosen(old(scopes), candidates, now, chosen.value)
        && S.IsNextActivation(old(Bindings()), now, at)
        && scopes == S.Activate(old(scopes), pending.records, chosen.value, candidates, session, at)
        && S.Winners(Bindings(), candidates) == {chosen.value}
      ensures binding.None? <==> S.Winners(Bindings(), candidates) == {}
      ensures binding.Some? ==> exists k :: k in S.Winners(Bindings(), candidates) && binding.value == Bindings()[k]
    {
      var newest := NewestWaiting(candidates, now);
      chosen, at := newest, now;
      if newest.None? {
        binding := Resolve(candidates);
        return;
      }
      var target := newest.value;
      var activatedAt := NextActivationTime(now);
      at := activatedAt;
      ghost var before := scopes;
      Switch(target, candidates, session, activatedAt);
      S.ActivateKeepsValid(before, pending.records, target, candidates, session, at);
      S.ActivateAgreesWithResolve(before, pending.records, target, candidates, session, now, at);
      binding := Some(scopes[target]);
    }
  }
}
