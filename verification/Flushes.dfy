/** What any flush does, whatever state it starts from: which files it removes, what it reports, when it stops. */
module Flushes {
  import opened Wrappers
  import opened Retry
  import opened Receipts
  import opened Outbox

  // ---------------------------------------------------------------- removal

  /** A send whose answer confirms the content found on disk. */
  predicate Confirmed(send: (Item, Disk), ctx: Context) {
    send.0.file in send.1.files && Verdict(send.1.files[send.0.file], TurnOf(ctx, send.0.file).response).None?
  }

  /** Sends so far account for every file removed between two disks, and no file was changed or added. */
  ghost predicate Accounted(before: Disk, p: Progress, ctx: Context) {
    && (forall f :: f in p.disk.files ==> f in before.files && p.disk.files[f] == before.files[f])
    && (forall i :: 0 <= i < |p.sends| ==> forall f :: f in p.sends[i].1.files ==>
          f in before.files && p.sends[i].1.files[f] == before.files[f])
    && (forall f :: f in before.files && f !in p.disk.files ==>
          exists i :: 0 <= i < |p.sends| && p.sends[i].0.file == f && Confirmed(p.sends[i], ctx))
  }

  /** The number of envelopes reported as flushed is the number removed, and every item is counted at most once. */
  ghost predicate Counted(before: Disk, p: Progress, left: nat) {
    && |before.files| == |p.disk.files| + p.result.flushed
    && p.result.flushed + p.result.quarantined + p.result.blocked + left <= p.result.queuedBefore
    && p.attempts == |p.sends| <= MAX_ATTEMPTS
    && p.result.flushed <= p.attempts
  }

  /** An item is either left on disk without a send, or sent once: then it is removed exactly when confirmed. */
  predicate SentOrLeft(p: Progress, p': Progress, item: Item, ctx: Context) {
    if p'.sends == p.sends then p'.attempts == p.attempts && p'.disk.files == p.disk.files
    else
      && p.attempts < MAX_ATTEMPTS && item.file in p.disk.files
      && p'.sends == p.sends + [(item, p.disk)] && p'.attempts == p.attempts + 1
      && p'.disk.files == if Confirmed((item, p.disk), ctx) then p.disk.files - {item.file} else p.disk.files
  }

  lemma ItemEffect(p: Progress, item: Item, ctx: Context)
    ensures SentOrLeft(p, FlushItem(p, item, ctx), item, ctx)
  {
  }

  /** It counts as flushed when it is removed, else at most as quarantined or blocked. */
  lemma ItemReport(p: Progress, item: Item, ctx: Context)
    ensures var p' := FlushItem(p, item, ctx);
      && p'.result.queuedBefore == p.result.queuedBefore
      && p'.result.flushed == p.result.flushed + (if p'.sends != p.sends && Confirmed((item, p.disk), ctx) then
                                                    1 else 0)
      && p'.result.flushed + p'.result.quarantined + p'.result.blocked
           <= p.result.flushed + p.result.quarantined + p.result.blocked + 1
  {
  }

  /** A refused credential stops the flush and pauses the queues. */
  lemma ItemPauses(p: Progress, item: Item, ctx: Context)
    ensures FlushItem(p, item, ctx).sends != p.sends && Unauthorized((item, p.disk), ctx) ==>
      FlushItem(p, item, ctx).stopped && FlushItem(p, item, ctx).disk.auth == Paused(ctx.credential)
  {
  }

  lemma ItemAccounted(before: Disk, p: Progress, p': Progress, item: Item, ctx: Context)
    requires Accounted(before, p, ctx) && SentOrLeft(p, p', item, ctx)
    ensures Accounted(before, p', ctx)
  {
    forall f | f in before.files && f !in p'.disk.files
      ensures exists i :: 0 <= i < |p'.sends| && p'.sends[i].0.file == f && Confirmed(p'.sends[i], ctx)
    {
      GoneWasSent(before, p, p', item, ctx, f);
    }
    SendsOnDisk(before, p, p', item, ctx);
  }

  lemma GoneWasSent(before: Disk, p: Progress, p': Progress, item: Item, ctx: Context, f: File)
    requires Accounted(before, p, ctx) && SentOrLeft(p, p', item, ctx) && f in before.files && f !in p'.disk.files
    ensures exists i :: 0 <= i < |p'.sends| && p'.sends[i].0.file == f && Confirmed(p'.sends[i], ctx)
  {
    if f in p.disk.files {
      var last := |p'.sends| - 1;
      assert p'.sends[last] == (item, p.disk) && Confirmed(p'.sends[last], ctx);
    } else {
      var i :| 0 <= i < |p.sends| && p.sends[i].0.file == f && Confirmed(p.sends[i], ctx);
      assert p'.sends[i] == p.sends[i];
    }
  }

  lemma SendsOnDisk(before: Disk, p: Progress, p': Progress, item: Item, ctx: Context)
    requires Accounted(before, p, ctx) && SentOrLeft(p, p', item, ctx)
    ensures forall i :: 0 <= i < |p'.sends| ==> forall f :: f in p'.sends[i].1.files ==>
      f in before.files && p'.sends[i].1.files[f] == before.files[f]
  {
    forall i | 0 <= i < |p'.sends|
      ensures forall f :: f in p'.sends[i].1.files ==> f in before.files && p'.sends[i].1.files[f] == before.files[f]
    {
      assert p'.sends[i] == if i < |p.sends| then p.sends[i] else (item, p.disk);
    }
  }

  lemma ItemCounted(before: Disk, p: Progress, item: Item, ctx: Context, left: nat)
    requires Counted(before, p, left + 1)
    ensures Counted(before, FlushItem(p, item, ctx), left)
  {
    ItemEffect(p, item, ctx);
    ItemReport(p, item, ctx);
  }

  lemma {:induction false} AllAccounted(before: Disk, p: Progress, items: seq<Item>, ctx: Context)
    requires Accounted(before, p, ctx) && Counted(before, p, |items|)
    ensures Accounted(before, FlushAll(p, items, ctx), ctx) && Counted(before, FlushAll(p, items, ctx), 0)
    decreases |items|
  {
    if items != [] && !p.stopped {
      ItemEffect(p, items[0], ctx);
      ItemAccounted(before, p, FlushItem(p, items[0], ctx), items[0], ctx);
      ItemCounted(before, p, items[0], ctx, |items| - 1);
      AllAccounted(before, FlushItem(p, items[0], ctx), items[1..], ctx);
    }
  }

  /**
    A flush removes a file only after a valid receipt for its content: every file that is gone was sent, and
    its answer confirms it; the others are untouched. It reports as flushed exactly what it removed, and
    sends at most a hundred envelopes.
   */
  lemma FlushAccounts(disk: Disk, items: seq<Item>, ctx: Context)
    ensures var p := Flush(disk, items, ctx);
      && (forall f :: f in p.disk.files ==> f in disk.files && p.disk.files[f] == disk.files[f])
      && (forall f :: f in disk.files && f !in p.disk.files ==>
            (exists i :: 0 <= i < |p.sends| && p.sends[i].0.file == f)
            && Verdict(disk.files[f], TurnOf(ctx, f).response).None?)
      && |disk.files| == |p.disk.files| + p.result.flushed
      && p.result.flushed + p.result.quarantined + p.result.blocked <= p.result.queuedBefore == |items|
      && p.result.flushed <= |p.sends| <= MAX_ATTEMPTS
  {
    if !PausesAll(disk.auth, ctx.credential) {
      AllAccounted(disk, Start(disk, items), items, ctx);
      assert FlushAll(Start(disk, items), items, ctx) == Flush(disk, items, ctx);
    }
    QueuedBeforeStays(Start(disk, items), items, ctx);
  }

  /** The receipt that an answer carries. */
  function ReceiptOf(response: Response): Option<Receipt> {
    match response
    case Answer(receipt) => Some(receipt)
    case Refused(_, replay) => replay
  }

  /**
    An injection event leaves the queue only once it is on record: the answer that let it go shows its
    attempt, with the session, turn and workstream it claims, the event among the attempt's own, and its
    phase stamped with its time; an acknowledgement, only when complete.
   */
  lemma RemovedInjectionIsRecorded(disk: Disk, items: seq<Item>, ctx: Context, f: File)
    requires f in disk.files && f !in Flush(disk, items, ctx).disk.files
    requires disk.files[f].Envelope? && disk.files[f].claim.Some?
    ensures var (receipt, claim) := (ReceiptOf(TurnOf(ctx, f).response), disk.files[f].claim.value);
      && receipt.Some? && receipt.value.InjectionReceipt?
      && exists a ::
           && a in receipt.value.attempts && a.id == claim.attempt && disk.files[f].eventId in a.eventIds
           && a.session == claim.session && a.turn == claim.turn && a.workstream == claim.workstream
           && PhaseTime(a, claim.phase) == Some(claim.occurredAt) && (claim.phase == Acknowledged ==> a.ackComplete)
  {
    FlushAccounts(disk, items, ctx);
    var receipt := ReceiptOf(TurnOf(ctx, f).response).value;
    assert Confirms(receipt, disk.files[f]);
    var found := FindAttempt(receipt.attempts, disk.files[f].claim.value.attempt);
    assert found.value in receipt.attempts;
  }

  lemma {:induction false} QueuedBeforeStays(p: Progress, items: seq<Item>, ctx: Context)
    ensures FlushAll(p, items, ctx).result.queuedBefore == p.result.queuedBefore
    decreases |items|
  {
    if items != [] && !p.stopped {
      ItemReport(p, items[0], ctx);
      QueuedBeforeStays(FlushItem(p, items[0], ctx), items[1..], ctx);
    }
  }

  // ---------------------------------------------------------------- what an item leaves alone

  lemma MarkersElsewhere(p: Progress, item: Item, ctx: Context, lane: string)
    requires lane != item.lane
    ensures var markers := FlushItem(p, item, ctx).disk.markers;
      if lane in p.disk.markers then lane in markers && markers[lane] == p.disk.markers[lane] else lane !in markers
  {
    if item.file in p.disk.files && !Corrupt(p.disk, item) {
      SendMarkersElsewhere(p, item, ctx, lane);
    }
  }

  lemma SendMarkersElsewhere(p: Progress, item: Item, ctx: Context, lane: string)
    requires lane != item.lane && item.file in p.disk.files && SidecarOf(p.disk, item.file).attempts >= 0
    ensures var markers := Send(p, item, ctx).disk.markers;
      if lane in p.disk.markers then lane in markers && markers[lane] == p.disk.markers[lane] else lane !in markers
  {
  }

  lemma NotesElsewhere(p: Progress, item: Item, ctx: Context, f: File)
    requires f != item.file || (f in p.disk.files && Corrupt(p.disk, item))
    ensures var notes := FlushItem(p, item, ctx).disk.notes;
      if f in p.disk.notes then f in notes && notes[f] == p.disk.notes[f] else f !in notes
  {
    if item.file in p.disk.files && !Corrupt(p.disk, item) {
      assert f != item.file;
      SendNotesElsewhere(p, item, ctx, f);
    }
  }

  lemma SendNotesElsewhere(p: Progress, item: Item, ctx: Context, f: File)
    requires f != item.file && item.file in p.disk.files && SidecarOf(p.disk, item.file).attempts >= 0
    ensures var notes := Send(p, item, ctx).disk.notes;
      if f in p.disk.notes then f in notes && notes[f] == p.disk.notes[f] else f !in notes
  {
  }

  lemma FilesElsewhere(p: Progress, item: Item, ctx: Context, f: File)
    requires f != item.file || f !in p.disk.files || Corrupt(p.disk, item)
    ensures var files := FlushItem(p, item, ctx).disk.files;
      if f in p.disk.files then f in files && files[f] == p.disk.files[f] else f !in files
  {
    if f == item.file && f in p.disk.files {
      assert Corrupt(p.disk, item);
    } else {
      ItemEffect(p, item, ctx);
    }
  }

  lemma SentOnce(p: Progress, item: Item, ctx: Context)
    ensures FlushItem(p, item, ctx).sends in {p.sends, p.sends + [(item, p.disk)]}
  {
  }

  // ---------------------------------------------------------------- what is sent, and what a failure leaves

  /** The send is of the envelope as listed, and its sidecar lets it go under this credential now. */
  predicate Due(send: (Item, Disk), ctx: Context) {
    var (item, disk) := send;
    var sidecar := SidecarOf(disk, item.file);
    && item.file in disk.files && item.hash == Some(disk.files[item.file]) && !item.parseError
    && Valid(sidecar) && !Held(sidecar, ctx.credential, TurnOf(ctx, item.file).now) && sidecar.hash in {None, item.hash}
  }

  ghost predicate AllDue(p: Progress, ctx: Context) {
    forall i :: 0 <= i < |p.sends| ==> Due(p.sends[i], ctx)
  }

  lemma ItemDue(p: Progress, item: Item, ctx: Context)
    ensures FlushItem(p, item, ctx).sends != p.sends ==> Due((item, p.disk), ctx)
  {
  }

  /** The sidecar that a failed send leaves. */
  function Scheduled(send: (Item, Disk), ctx: Context): Option<Sidecar<Content>> {
    var (item, disk) := send;
    var sidecar, turn := SidecarOf(disk, item.file), TurnOf(ctx, item.file);
    if item.file !in disk.files || Verdict(disk.files[item.file], turn.response).None? || sidecar.attempts < 0 then None
    else Some(RetryState(Verdict(disk.files[item.file], turn.response).value, sidecar, turn.failedAt, turn.rng,
                         ctx.credential)
                .(hash := item.hash))
  }

  ghost predicate Recorded(p: Progress, send: (Item, Disk), ctx: Context) {
    Scheduled(send, ctx).Some? ==>
      send.0.file in p.disk.notes && p.disk.notes[send.0.file] == Note(Scheduled(send, ctx).value)
  }

  lemma ItemRecords(p: Progress, item: Item, ctx: Context)
    ensures FlushItem(p, item, ctx).sends != p.sends ==> Recorded(FlushItem(p, item, ctx), (item, p.disk), ctx)
  {
  }

  ghost predicate AllRecorded(p: Progress, ctx: Context) {
    forall i :: 0 <= i < |p.sends| ==> Recorded(p, p.sends[i], ctx)
  }

  /** Each file is listed once, and those already sent are not listed again. */
  ghost predicate Once(p: Progress, items: seq<Item>) {
    && (forall i, j :: 0 <= i < j < |items| ==> items[i].file != items[j].file)
    && (forall i, j :: 0 <= i < |p.sends| && 0 <= j < |items| ==> p.sends[i].0.file != items[j].file)
  }

  lemma RecordsKept(p: Progress, items: seq<Item>, ctx: Context)
    requires items != [] && Once(p, items) && AllRecorded(p, ctx) && AllDue(p, ctx)
    ensures var p' := FlushItem(p, items[0], ctx);
      Once(p', items[1..]) && AllRecorded(p', ctx) && AllDue(p', ctx)
  {
    var item := items[0];
    var p' := FlushItem(p, item, ctx);
    ItemEffect(p, item, ctx);
    ItemRecords(p, item, ctx);
    ItemDue(p, item, ctx);
    forall i | 0 <= i < |p'.sends|
      ensures Recorded(p', p'.sends[i], ctx) && Due(p'.sends[i], ctx)
    {
      if i < |p.sends| {
        assert p'.sends[i] == p.sends[i] && Recorded(p, p.sends[i], ctx);
        NotesElsewhere(p, item, ctx, p.sends[i].0.file);
      }
    }
  }

  lemma {:induction false} AllKept(p: Progress, items: seq<Item>, ctx: Context)
    requires Once(p, items) && AllRecorded(p, ctx) && AllDue(p, ctx)
    ensures AllRecorded(FlushAll(p, items, ctx), ctx) && AllDue(FlushAll(p, items, ctx), ctx)
    decreases |items|
  {
    if items != [] && !p.stopped {
      RecordsKept(p, items, ctx);
      AllKept(FlushItem(p, items[0], ctx), items[1..], ctx);
    }
  }

  /**
    A flush sends only what is due: the listed content, with a usable sidecar that holds nothing back under
    this credential at this time. When it ends, the sidecar of every failed send holds the schedule of that
    failure, counted once more than when the send began.
   */
  lemma SendsAreDueAndRecorded(disk: Disk, items: seq<Item>, ctx: Context, i: nat)
    requires forall i, j :: 0 <= i < j < |items| ==> items[i].file != items[j].file
    requires i < |Flush(disk, items, ctx).sends|
    ensures var p := Flush(disk, items, ctx);
      var (item, before) := p.sends[i];
      && Due((item, before), ctx)
      && (!Confirmed((item, before), ctx) ==>
            && item.file in p.disk.notes && Usable(p.disk.notes[item.file])
            && var sidecar := p.disk.notes[item.file].sidecar;
            && sidecar.attempts == SidecarOf(before, item.file).attempts + 1
            && sidecar.hash == Some(before.files[item.file])
            && sidecar.state == Classify(Verdict(before.files[item.file], TurnOf(ctx, item.file).response).value)
            && (sidecar.state == RetryWait <==> sidecar.nextRetryAt.Some?)
            && sidecar.credential == Some(ctx.credential))
  {
    AllKept(Start(disk, items), items, ctx);
    var p := Flush(disk, items, ctx);
    assert Due(p.sends[i], ctx) && Recorded(p, p.sends[i], ctx);
  }

  // ---------------------------------------------------------------- the authentication pause

  /** The answer to this send refuses the credential. */
  predicate Unauthorized(send: (Item, Disk), ctx: Context) {
    send.0.file in send.1.files &&
    var failure := Verdict(send.1.files[send.0.file], TurnOf(ctx, send.0.file).response);
    failure.Some? && failure.value.status in {Some(401), Some(403)}
  }

  /** A refused credential has been met at most in the last send, and then the flush is over and paused. */
  ghost predicate PausedWhenRefused(p: Progress, ctx: Context) {
    forall i :: 0 <= i < |p.sends| && Unauthorized(p.sends[i], ctx) ==>
      i == |p.sends| - 1 && p.stopped && p.disk.auth == Paused(ctx.credential)
  }

  lemma {:induction false} AllPausedWhenRefused(p: Progress, items: seq<Item>, ctx: Context)
    requires PausedWhenRefused(p, ctx)
    ensures PausedWhenRefused(FlushAll(p, items, ctx), ctx)
    decreases |items|
  {
    if items != [] && !p.stopped {
      var p' := FlushItem(p, items[0], ctx);
      ItemEffect(p, items[0], ctx);
      ItemPauses(p, items[0], ctx);
      AllPausedWhenRefused(p', items[1..], ctx);
    }
  }

  /** What may come later under the same credential: new files, and flushes of either queue. */
  datatype Later = Arrive(file: File, content: Content) | FlushQueue(items: seq<Item>, ctx: Context)

  predicate Under(steps: seq<Later>, credential: string) {
    forall s :: s in steps && s.FlushQueue? ==> s.ctx.credential == credential
  }

  function RunLater(disk: Disk, steps: seq<Later>): (Disk, seq<(Item, Disk)>)
    decreases |steps|
  {
    if steps == [] then (disk, [])
    else match steps[0]
      case Arrive(file, content) => RunLater(disk.(files := disk.files[file := content]), steps[1..])
      case FlushQueue(items, ctx) =>
        var p := Flush(disk, items, ctx);
        var (end, sends) := RunLater(p.disk, steps[1..]);
        (end, p.sends + sends)
  }

  function Arrived(files: map<File, Content>, steps: seq<Later>): map<File, Content>
    decreases |steps|
  {
    if steps == [] then files
    else Arrived(if steps[0].Arrive? then files[steps[0].file := steps[0].content] else files, steps[1..])
  }

  lemma {:induction false} PauseHolds(disk: Disk, steps: seq<Later>, credential: string)
    requires disk.auth == Paused(credential) && Under(steps, credential)
    ensures RunLater(disk, steps) == (disk.(files := Arrived(disk.files, steps)), [])
    decreases |steps|
  {
    if steps != [] {
      assert steps[0] in steps;
      match steps[0]
      case Arrive(file, content) =>
        PauseHolds(disk.(files := disk.files[file := content]), steps[1..], credential);
      case FlushQueue(items, ctx) =>
        PauseHolds(disk, steps[1..], credential);
        var p := Flush(disk, items, ctx);
        assert p.disk == disk && p.sends == [];
        var (end, sends) := RunLater(disk, steps[1..]);
        assert RunLater(disk, steps) == (end, p.sends + sends);
        assert end == disk.(files := Arrived(disk.files, steps)) && p.sends + sends == [];
    }
  }

  /**
    The authentication pause over whole runs: a send refused with 401 or 403 is the last of its flush, and
    whatever arrives or is flushed under the same credential afterwards sends nothing and changes no
    envelope, sidecar or marker.
   */
  lemma RefusedCredentialPauses(disk: Disk, items: seq<Item>, ctx: Context, i: nat, steps: seq<Later>)
    requires i < |Flush(disk, items, ctx).sends| && Unauthorized(Flush(disk, items, ctx).sends[i], ctx)
    requires Under(steps, ctx.credential)
    ensures var p := Flush(disk, items, ctx);
      && i == |p.sends| - 1
      && RunLater(p.disk, steps).1 == []
      && RunLater(p.disk, steps).0 == p.disk.(files := Arrived(p.disk.files, steps))
  {
    AllPausedWhenRefused(Start(disk, items), items, ctx);
    PauseHolds(Flush(disk, items, ctx).disk, steps, ctx.credential);
  }
}
