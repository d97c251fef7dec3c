# Hermes adapter: durable hand-off and synchronisation

A Dafny model of the Hermes adapter's protocols over records on disk, and proofs about all their runs.
`dafny verify dfyconfig.toml` checks the whole project.

**Resume hand-off** (`Resume`, `Stores`, `Runtime`, `Handoff*`). A confirmed Resume Packet is queued, claimed by a
turn of a session, declared to the server, handed to the host once, and acknowledged or failed when the turn ends.
`Resume` gives what each store operation writes, `Stores` the two stores as classes whose loops are proved against it,
`Runtime` the hooks as sequential programs over those classes. `Handoff` is the concurrent protocol: any number of hooks,
ends of turns and restarts, each step one atomic store operation, one answer of the server or one return to the host,
interleaved freely. Its world carries a log of accepted declarations, hand-offs, returns and outcomes.

**Task scopes** (`Tokens`, `Scopes`, `HandoffBindings`). A prepared scope file is inert until the pending record commits
it; every read joins the two. On top sit token matching by kind, supersession and repaired activation times.

**Outbox** (`Retry`, `Receipts`, `Outbox`, `OutboxStore`, `Flushes`, `Mishaps`, `Arrivals`, `LaneOrder`, `LaneLimits`,
`Overtaking`, `MidFlush`, `Drain`). Two queues of write-once envelopes share lanes, sidecar states, lane markers and one
authentication pause. `Outbox.Flush` follows every branch of the flush loop; `OutboxStore` is the loop itself, proved equal
to it, with listing, creation and submission. `Mishaps` adds turns cut short by a dying worker or a failing operation, at
any point, and `Arrivals` the files that come in while a flush is under way.

**Delivery** (`Delivery*`, `Crashes`, `CutRuns`). The same flush cut into single file operations, with lost and late
requests, lost answers, failing operations and dying workers, against a server that keeps the first content of an event.
Every turn of `Mishaps` is such a run (`MishapIsRun`).

**Locks and files** (`DirectoryLock`, `Envelopes`). The re-entrant directory lock with forks, and the creation of one
envelope by several writers.

Reading conventions: directories are maps from keys to records; identifiers come from a counter; times are numbers passed
in, and clocks may run backwards; the content of a file stands for its digest; file loops take the files in any order,
which covers the sorted one; `Waiting` is the scope status "pending"; time 0 in an envelope is the empty text; `late` is the
elapsed-time limit of a flush and `busy` the lanes whose kernel lock another process holds. The steps of `Handoff` that look
a record up by attempt take its file as a parameter, which allows more than the source does.

## What turned out otherwise

Five properties one might expect do not hold of the code as it is. Each has an input that is reached by a run, and the
exact condition under which it does hold.

- *Context never reaches the host after an outcome of its attempt.* Returning it is a separate moment after the committed
  hand-off, and the turn may end in between (`ReturnMayFollowOutcome`, reached by `HandedOffIsReachable`). A return comes
  before every outcome exactly when the record is still in flight under the attempt, which the store can tell right before
  (`ReturnBeforeOutcomeIff`); it rests on no claimed attempt ever vanishing (`NoAttemptVanishes`). The committed hand-off
  itself never follows an outcome (`HandedOutOnce`).
- *A new envelope is never overtaken in its lane.* A flush works from the listing it made, so there are two cases.
  One that arrives while a flush is under way is overtaken by it exactly when the first item still listed of its lane that
  it sorts before is sent: the flush comes to that item, it is free to go, and its worker lives to send it
  (`MidFlushArrivalIff`, at any point of a flush `ArrivalIsOvertakenIff`); with no such item it is not
  (`ArrivalIsNotOvertaken`). Being in time does not help:
  `MidFlushOvertakes` queues an envelope between two fresh ones of a flush, and the last one is sent past it.
  One that arrives before the listing, and sorts before the marked head of its lane, is overtaken exactly when the flush
  comes to that head, the head is free to go (its sidecar usable and holding nothing back, its content unchanged, no
  predecessor before it), and no unusable sidecar of the lane comes before it (`LateArrivalIsOvertaken`, for any disk
  `MarkedOvertakesIff`); `OvertakingHappens` reaches such a disk from nothing. The invariant behind the order, as distinct
  from what is sent, survives an arrival between flushes exactly when it is in time (`ArrivalKeepsIff`): not before the
  marked head, and if a marker or waiting sidecar of the same file was left behind, in that lane as its head.
- *A crash keeps lane order.* Wherever a worker dies in a turn, and whatever fails, it does, exactly unless the worker dies
  between the sidecar and the marker of a failure whose envelope is still queued in an unmarked lane (`DyingKeepsIff`,
  `TurnKeeps`; for an envelope that need not head its lane, `CrashKeepsIff`). `SendsInLaneOrder` is over runs with all other
  mishaps. In an
  unmarked lane the second envelope is then sent past the first exactly when it is free to go and the first is held back by
  its own sidecar (`UnmarkedIsOvertakenIff`); a dying worker does leave such a disk (`UnmarkedFailureIsOvertaken`).
  A delivery cut short closes its lane for good exactly when its envelope is removed by then and the lane is marked: by an
  earlier failure, or by the worker itself, which records a clean-up that failed even though the envelope is gone
  (`CutShortCloses`, `ClosedLaneStays`; reached by `ClosedLaneReached` and `FailedCleanUpCloses`).
- *Quarantine is permanent.* It ends exactly when an earlier item of the lane is in the other queue
  (`FinalUnlessPreceded`); otherwise it is permanent and closes the lane (`FinalStopsLane`).
- *The attempt count on disk is never behind the sends.* It holds, whatever else happens, exactly for callers that use each
  event identifier in one lane (`CountedAheadIff`); otherwise it falls behind by any number (`CountLostAcrossLanes`).

Also, a comment in the source says that the kernel releases the directory lock when its process dies. That holds exactly
when no forked process still has the description open (`DeathReleasesIff`).

## Model

| member | source | states |
|---|---|---|
| Tokens.ScopeTokens | adapters/hermes/client.py:214-225 | one selector of each kind, exactly for what is named, with the text it stands for |
| Tokens.SessionScopeMatch | adapters/hermes/client.py:659-672 | a record of session selectors only matches exactly the lists that share one of them |
| Tokens.WidenedStillMatches | adapters/hermes/client.py:659-667 | widening a record by a list it shares a selector with makes it match that list, whichever kind decides |
| Tokens.MatchMeansCommon | adapters/hermes/client.py:659-667 | a match always rests on a shared selector |
| Scopes.OneSessionBinding | adapters/hermes/client.py:670-679 | a one-session binding answers exactly the lists naming its session, whatever its stored active tokens say |
| Scopes.ActivateAgreesWithResolve | adapters/hermes/client.py:780-830 | right after an activation the activated binding is the only answer resolve can give to the same list, for any clock |
| Scopes.ActivateBindings | adapters/hermes/client.py:794-819 | the bindings in force after an activation: those that gave way gone, the chosen one on, the others untouched |
| Scopes.SessionNonInterference | adapters/hermes/client.py:794-819 | activating a one-session binding leaves the answers for every list without that session as they were, if session bindings name one session each |
| Scopes.SessionsNeverShare | adapters/hermes/client.py:659-679 | a binding to a session answers a conversation exactly when it is of that named session, whatever else the two share |
| HandoffBindings.SessionsApart | adapters/hermes/client.py:729-819 | in every reachable world sessions do not interfere: callers' selectors give each session binding one session |
| Scopes.SupersededIsOwn | adapters/hermes/client.py:800-812 | the only binding an exact session choice supersedes is that session's own |
| Scopes.ActivateKeepsValid | adapters/hermes/client.py:780-819 | activation keeps every file well formed: manual files never read as prepared, prepared ones keep their hand-off |
| Stores.PendingResumeStore.Queue | adapters/hermes/client.py:369-420 | exactly live copies that are not renewable are kept; a written one is pending under fresh identifiers with the earlier commit; in-flight and delivered files never change |
| Stores.PendingResumeStore.Claim | adapters/hermes/client.py:422-455 | a claim comes back exactly when some record is claimable; it changes that one file only, and none when the session owns it |
| Stores.PendingResumeStore.MarkContextReturned | adapters/hermes/client.py:457-487 | marks and commits in one write an unmarked record whose destination is exact; raises exactly for another destination, changing nothing |
| Stores.PendingResumeStore.CancelConsoleAuthorization | adapters/hermes/client.py:489-504 | cancels a Console copy only before its hand-off, and otherwise changes nothing |
| Stores.PendingResumeStore.Fail | adapters/hermes/client.py:528-550 | ends the attempt and starts the record over, unless it is handed off under Console confirmation or not in flight |
| Stores.PendingResumeStore.Finish | adapters/hermes/client.py:569-597 | the loop over files is the pass that ends the session's in-flight records |
| Stores.PendingResumeStore.RecoverInFlight | adapters/hermes/client.py:599-616 | the loop over files is the pass that fails every in-flight record |
| Stores.SettleAllAt | adapters/hermes/client.py:569-616 | a pass rewrites exactly the records it is for, with fresh identifiers and the outcome of the record it found |
| Stores.SettleAllOutcomes | adapters/hermes/client.py:569-616 | what a pass emits is one outcome for each record it ends, in order, and nothing else |
| Stores.OutcomeAt | adapters/hermes/client.py:569-616 | each of them is the outcome of the record as the pass found it, under its own identifiers |
| Stores.TaskScopeStore.NextActivationTime | adapters/hermes/client.py:682-687 | strictly after every active binding; the clock, or one microsecond after the latest |
| Stores.TaskScopeStore.Stage | adapters/hermes/client.py:729-778 | stages exactly complete packets, for a hand-off only to its exact destination; a manual file is written once and kept |
| Stores.TaskScopeStore.Resolve | adapters/hermes/client.py:821-830 | a newest matching binding, or none exactly when none matches |
| Stores.TaskScopeStore.Activate | adapters/hermes/client.py:780-819 | activates a newest matching waiting binding; what it returns is what resolve answers afterwards |
| Runtime.PluginRuntime.PreLlmCall | adapters/hermes/__init__.py:161-242 | nothing while events cannot be flushed; else a claim, local or of the Console's offer, exactly when there is one, and what follows from it |
| Runtime.PluginRuntime.TakeClaim | adapters/hermes/__init__.py:193-205 | a local claim if any record is claimable, else one of what the Console offers this session |
| Runtime.PluginRuntime.HandOver | adapters/hermes/__init__.py:206-241 | the state after each branch: already returned, accepted, stale conflict, other failure; the hook raises exactly when it gave the attempt up and the queue fails |
| Runtime.ReadyGetsContext | adapters/hermes/__init__.py:206-241 | the context is handed over exactly when the declaration is accepted and the record is ready for it |
| Runtime.PluginRuntime.OnSessionEnd | adapters/hermes/__init__.py:281-307 | the session's records end; their outcomes are sent, or queued when that fails, up to the first that fails twice |
| Runtime.PluginRuntime.Register | adapters/hermes/__init__.py:453-467 | every in-flight attempt fails at startup; their outcomes are sent, or queued when that fails, up to the first that fails twice |
| Runtime.PassReportsAllIff | adapters/hermes/__init__.py:299-307 | one outcome for each record a pass ends; all are reported exactly when the queue takes each one that the server refuses |
| Runtime.ReportedUntilLost | adapters/hermes/__init__.py:299-307 | before the first outcome refused by server and queue each is reported, that one is not, and nothing after it is sent or queued |
| HandoffSteps.RunKeeps | adapters/hermes/client.py:369-616 | the invariant of records, hooks, log, commits and scope files holds after every interleaving |
| HandoffTheorems.HandedOutOnce | adapters/hermes/__init__.py:186-241 | in every interleaving an attempt is handed off at most once, after acceptance, never after an outcome; returned at most once |
| HandoffTheorems.OneOutcome | adapters/hermes/client.py:489-616 | at most one outcome for each attempt; a Console attempt is acknowledged only after its hand-off, dropped only without |
| HandoffReturns.ReturnBeforeOutcomeIff | adapters/hermes/__init__.py:220-241 | a return precedes every outcome of its attempt if and only if the record is still in flight under it |
| HandoffReturns.NoAttemptVanishes | adapters/hermes/client.py:369-616 | in every run a claimed attempt has an outcome exactly when its record is no longer in flight under it |
| HandoffTheorems.OutcomeOnlyInTheWindow | adapters/hermes/__init__.py:220-241 | an outcome that comes before the return falls after the committed hand-off |
| HandoffTheorems.ReturnMayFollowOutcome | adapters/hermes/__init__.py:220-241 | between hand-off and return the end of the turn can come first |
| HandoffTheorems.HandedOffIsReachable | adapters/hermes/__init__.py:186-241 | a run that brings a Console attempt to that point, its scope committed and its record frozen |
| HandoffTheorems.ProvenanceFixed | adapters/hermes/client.py:628-656 | all reports of an attempt agree on session, turn, workstream, method and version; a repeated declaration is identical |
| HandoffTheorems.EveryOutcomeReported | adapters/hermes/client.py:528-656 | every record that an end of turn, a failure or a restart emits has what its report needs |
| HandoffTheorems.EveryClaimDeclared | adapters/hermes/client.py:422-455 | so has every record that a claim returns, until its hook is done |
| HandoffTheorems.InFlightIsComplete | adapters/hermes/client.py:422-455 | in every run a record in flight is one that its claim filled in |
| HandoffTheorems.DeliveredAbsorbing | adapters/hermes/client.py:390-399 | no later step, cancellation included, changes a delivered record |
| HandoffTheorems.HandedOffIsFrozen | adapters/hermes/client.py:464-465 | between hand-off and the end of its turn a Console record is changed by no queueing, claim, mark, cancellation or failure |
| HandoffTheorems.PassIsRun | adapters/hermes/client.py:569-616 | the stores' passes are runs of single endings of the protocol |
| HandoffTheorems.TallyIsLog | adapters/hermes/__init__.py:186-241 | the protocol's bookkeeping of accepted, handed, returned and ended attempts is what the log shows |
| HandoffBindings.PreparingIsInert | adapters/hermes/client.py:703-724 | writing the prepared file changes no answer, so a crash before the commit leaves resolve as it was |
| HandoffBindings.BindingsUnmoved | adapters/hermes/client.py:703-778 | no step but an activation or a commit moves any binding |
| HandoffBindings.CommitSwitches | adapters/hermes/client.py:457-487 | the one write of the commit switches the new file on and the file of the Resume's earlier commit off together |
| HandoffBindings.CommitNamesSession | adapters/hermes/client.py:729-750 | a committed scope names one session, the one its attempt was claimed by |
| HandoffBindings.CommitAnswers | adapters/hermes/client.py:457-487 | while no binding is as new as its stamp, the committed scope is the only answer for lists naming its session |
| HandoffBindings.CommitLeavesOthers | adapters/hermes/client.py:703-724 | lists that neither the new nor the replaced scope answers keep their answers |
| HandoffBindings.CommitIsLast | adapters/hermes/client.py:467-486 | a record always carries the commit of the last hand-off that bound its Resume |
| HandoffBindings.CommittedIsInForce | adapters/hermes/client.py:703-724 | a committed scope is in force unless an activation superseded its file |
| HandoffBindings.CommittedScopeStays | adapters/hermes/client.py:390-420 | failed turns, restarts, cancellations, renewals and failed preparations never take it away |
| Retry.CeilingGrows | adapters/hermes/sync_protocol.py:143 | the ceiling never falls and is the cap exactly from the tenth failure on |
| Retry.BackoffWithin | adapters/hermes/sync_protocol.py:143 | with any jitter a wait lies between half its ceiling and its ceiling, within 500 and 300000 milliseconds |
| Retry.RetrySchedule | adapters/hermes/sync_protocol.py:128-152 | a next time exactly while waiting to retry, within the bounds, never before a usable Retry-After; the sidecar, with its code, is one the next flush accepts |
| Retry.Raised | adapters/hermes/sync_protocol.py:113-118 | the code of a refusal is the server's when it has the accepted form, and always one the next flush accepts |
| Retry.OnlyTransientRetried | adapters/hermes/sync_protocol.py:137-142 | exactly missing answers, server errors and 429 are retried on a timer |
| Receipts.ReceiptNamesOneEvent | adapters/hermes/sync_protocol.py:199-217 | envelopes that one receipt confirms carry one event, counted once as new or as known |
| Receipts.HonestReceiptConfirms | adapters/hermes/sync_protocol.py:199-217 | an honest answer is accepted, first or repeated, exactly for events with an identifier or a claim |
| OutboxStore.OutboxStore.ImmutableEnvelope | adapters/hermes/sync_protocol.py:163-179 | creates once; succeeds again only with equal content; changes no existing file |
| OutboxStore.OutboxStore.QueueItems | adapters/hermes/sync_protocol.py:181-197 | the listing holds each file of the queue once, in the order of time, terminal phase last, and name |
| OutboxStore.InsertSorts | adapters/hermes/sync_protocol.py:197 | inserting keeps the order and adds just the new item |
| OutboxStore.OutboxStore.FlushQueue | adapters/hermes/sync_protocol.py:219-301 | the loop equals the specification of a flush, in disk, report and sends |
| OutboxStore.OutboxStore.FlushOne | adapters/hermes/sync_protocol.py:233-300 | one turn of the loop, branch by branch |
| OutboxStore.OutboxStore.FlushKind | adapters/hermes/client.py:926-949 | a queue is flushed behind the listing of the other; every file it removes was confirmed |
| OutboxStore.OutboxStore.SubmitEvent | adapters/hermes/client.py:961-971 | conflict, queued or synchronized; synchronized only after a valid receipt, queued only with the content on disk |
| Flushes.FlushAccounts | adapters/hermes/sync_protocol.py:219-301 | files are removed only after a confirming answer to their content; the report counts what was removed; a hundred sends at most |
| Flushes.RemovedInjectionIsRecorded | adapters/hermes/sync_protocol.py:207-216 | an injection event leaves the queue only once the server's answer shows it on its attempt, with its session, turn, workstream and time |
| Flushes.SendsAreDueAndRecorded | adapters/hermes/sync_protocol.py:246-295 | only due envelopes with their listed content are sent; a failed send leaves its schedule in the sidecar, counted once more |
| Flushes.RefusedCredentialPauses | adapters/hermes/sync_protocol.py:226-299 | a send refused with 401 or 403 is the last; later flushes under that credential send and change nothing |
| LaneOrder.SendsInLaneOrder | adapters/hermes/sync_protocol.py:233-300 | over whole runs, with arrivals between and during flushes, failing operations and workers that die, nothing is sent past an earlier envelope of its lane and queue, nor past an earlier predecessor |
| LaneOrder.DyingKeepsIff | adapters/hermes/sync_protocol.py:276-299 | wherever a worker dies in a turn the order is kept, exactly unless it loses track: between sidecar and marker, its envelope queued, its lane unmarked |
| LaneOrder.TurnKeeps | adapters/hermes/sync_protocol.py:233-300 | every other turn, with any death or failing operation, leaves the rest of the flush sound |
| Arrivals.FlushInStep | adapters/hermes/sync_protocol.py:233-300 | files that arrive during a flush, wherever they sort, change nothing of what it does to its listing, and stay |
| MidFlush.ArrivalIsOvertakenIff | adapters/hermes/sync_protocol.py:233-300 | a file that arrives at any point of a flush is overtaken by it exactly when the first listed item of its lane that it comes before is sent |
| MidFlush.MidFlushArrivalIff | adapters/hermes/sync_protocol.py:219-300 | the same for a whole flush of an ordered disk and a file that arrives before any of its turns |
| MidFlush.ArrivalIsNotOvertaken | adapters/hermes/sync_protocol.py:233-300 | with no such item listed, nothing overtakes it in that flush |
| MidFlush.StartsUnderWay | adapters/hermes/sync_protocol.py:219-233 | every flush of an ordered disk, with any new files and mishaps that keep track, is one of those |
| MidFlush.MidFlushOvertakes | adapters/hermes/sync_protocol.py:233-289 | a concrete flush: an envelope queued between the two it listed, in time, is passed by the second |
| LaneOrder.FlushKeeps | adapters/hermes/sync_protocol.py:233-300 | a flush, whatever befalls its turns but losing track, keeps "a queued file with a waiting sidecar has its lane marked for it, and a queued file named by a marker heads its lane", where unusable sidecars take a lane over |
| LaneOrder.ClearedIsHead | adapters/hermes/sync_protocol.py:252-259 | an item that passes the checks on predecessor and owner heads its lane |
| LaneLimits.ArrivalKeepsIff | adapters/hermes/sync_protocol.py:256-259 | the invariant behind lane order survives an arrival between flushes exactly when it is in time: not before the marked head, nor back out of place |
| Overtaking.LateArrivalIsOvertaken | adapters/hermes/sync_protocol.py:256-259 | an arrival before the marked head and before the listing is overtaken exactly when the flush comes to that head, the head is free to go, and the arrival's own sidecar is usable |
| Overtaking.MarkedOvertakesIff | adapters/hermes/sync_protocol.py:233-300 | for any disk: a marked lane is sent out of order exactly when the flush comes to the marked item, it is free to go, and no unusable sidecar of the lane comes before |
| Overtaking.OvertakingHappens | adapters/hermes/sync_protocol.py:256-259 | a run from nothing after which a flush sends a failed envelope past an earlier one |
| Overtaking.CrashKeepsIff | adapters/hermes/sync_protocol.py:292-295 | for any file, head of its lane or not: stopping between sidecar and marker keeps the order exactly when the lane was marked before |
| Overtaking.UnmarkedIsOvertakenIff | adapters/hermes/sync_protocol.py:233-300 | for any disk: the second envelope of an unmarked lane passes the first exactly when it is free to go and the first is held back by its sidecar |
| Crashes.UnmarkedFailureIsOvertaken | adapters/hermes/sync_protocol.py:292-295 | a worker that dies between the two writes leaves such a disk, and the next flush loses the order |
| Crashes.ClosedLaneReached | adapters/hermes/sync_protocol.py:285-289 | a worker that dies after removing an envelope that had failed before leaves its lane closed |
| LaneLimits.ClosedLaneStays | adapters/hermes/sync_protocol.py:256-263 | a lane whose marker names a missing or unusable file sends nothing in any run that does not put the file back |
| CutRuns.FailedCleanUpCloses | adapters/hermes/sync_protocol.py:286-295 | from nothing: a clean-up that fails once the envelope is removed marks and so closes an unmarked lane |
| CutRuns.MishapIsRun | adapters/hermes/sync_protocol.py:267-295 | what a turn cut short leaves, wherever it is cut, is left by a run of one worker's single operations |
| LaneLimits.CutShortCloses | adapters/hermes/sync_protocol.py:287-295 | a delivery cut short closes its lane exactly when its envelope is gone and the lane is marked, before or by recording the failed operation |
| LaneLimits.FinalUnlessPreceded | adapters/hermes/sync_protocol.py:252-266 | a turn takes a quarantined state away exactly when an earlier item of the lane is in the other queue |
| LaneLimits.FinalStopsLane | adapters/hermes/sync_protocol.py:264-266 | otherwise it is permanent, and its lane sends nothing from either queue |
| Drain.FlushDrains | adapters/hermes/sync_protocol.py:219-301 | when every envelope is willing, a flush delivers the first hundred in order and nothing else |
| Drain.FlushesDrain | adapters/hermes/sync_protocol.py:219-301 | from any state reached by whole flushes, or with no closed lane and no sidecar of other content, m more leave exactly what exceeds a hundred times m: ceil(n / 100) empty a queue of n |
| Delivery.NothingLostNorDoubled | adapters/hermes/client.py:921-971 | after any run every accepted event is in the outbox or on the server with its content, and stored at most once |
| Delivery.RemovedAfterReceipt | adapters/hermes/sync_protocol.py:283-289 | an envelope disappears only by the worker that sent it, after a receipt valid for it, with the server holding it |
| DeliveryCounts.CountedAhead | adapters/hermes/sync_protocol.py:276-278 | wherever a run is cut, the count on disk is at least the sends begun, and every sidecar is one the next flush accepts |
| DeliveryRuns.CountedAheadIff | adapters/hermes/sync_protocol.py:233-295 | the counts stay ahead in every run if and only if callers use each identifier in one lane |
| DeliveryCounts.CountNeverFalls | adapters/hermes/sync_protocol.py:276-295 | the count falls exactly when the sidecar of a delivered envelope is removed, and then no send of it has begun |
| DeliveryRuns.SendIsRun | adapters/hermes/sync_protocol.py:276-299 | the send of a flush, as one piece, is a run of single operations |
| DeliveryRuns.CountLostAcrossLanes | adapters/hermes/sync_protocol.py:233-295 | an identifier reused in another session lets the count fall behind by any number |
| Envelopes.WrittenOnce | adapters/hermes/sync_protocol.py:163-179 | over any creators interleaved one value becomes visible and never changes; equal ones succeed, others conflict |
| Envelopes.ThreeActsFinish | adapters/hermes/sync_protocol.py:163-179 | a creator is done after three operations, with the verdict its value deserves |
| DirectoryLock.MutualExclusion | adapters/hermes/client.py:317-334 | at most one thread of any process owns a directory, and it holds the kernel's lock |
| DirectoryLock.KeptUntilLastExit | adapters/hermes/client.py:336-346 | ownership ends exactly with the owner's last exit or its process; depth counts entries less exits |
| DirectoryLock.ForkInheritsNothing | adapters/hermes/client.py:304-315 | a forked child owns nothing and takes nothing |
| DirectoryLock.DeathReleasesIff | adapters/hermes/client.py:326-331 | a death unlocks exactly when no other process has the description open |
| DirectoryLock.LockedMeansOwned | adapters/hermes/client.py:299-346 | a directory is locked only while owned, or after the process that locked it died |

## Left out

- `release` (adapters/hermes/client.py:506-526): the runtime never calls it, and it keeps the attempt.
- The server, the Console and its confirmations: only an idempotent server that confirms what it stored, and answers as parameters.
- HTTP, DNS, deadlines, redirects, TLS and JSON decoding: a send returns a decoded answer or a classified failure.
- Formats of identifiers and times, regular expressions, hashing, file permissions, fsync and names of temporary files.
- Bookkeeping stamps that no branch reads (created, updated and claimed times of pending records, idempotency keys, `sync-last-success`).
- Corrupt pending and scope files: reading one raises and ends the operation; corrupt sidecars and markers are modelled.
- Shaping and display: injection text, compaction, previews, status, counts, commands, tool schemas, logging.
- Runtime.PluginRuntime.PreLlmCall: states a hook that runs alone; interleaved hooks are the subject of `Handoff`. Event capture is not part of it.
- OutboxStore.OutboxStore.FlushQueue: answers, clocks and jitter come in as a table by file; failing file operations are in `Mishaps` and `Delivery`.
- LaneOrder.SendsInLaneOrder: for flushes that do not overlap, arrivals in time (during a flush, also after what is still listed of their lane, and no file that left a sidecar or marker behind), readable markers, and workers that do not lose track; `MidFlush`, `Overtaking` and `DyingKeepsIff` say what happens otherwise.
- MidFlush.ArrivalIsOvertakenIff: the same, but for arrivals wherever they sort.
- Drain.FlushesDrain: for an empty other queue and answers that all confirm; how the clock makes waiting envelopes due is not modelled.
- DeliveryCounts.CountedAhead: for event identifiers that stay in one lane, which `CountedAheadIff` shows is needed; damaged sidecars are not part of it.
- Retry.RetrySchedule: times in a sidecar are numbers, so a retry time that cannot be parsed is a sidecar that cannot be read.
- DirectoryLock.MutualExclusion: a state machine over the lock's operations instead of a class, because threads and forks interleave; the end of a thread that still holds the lock is not modelled.
- Envelopes.WrittenOnce: while no flusher removes the file; removal is in `Delivery`, where creation is one step.
- The scope store locks by instance only: its methods are single critical sections, and in `Handoff` an activation is one step.
