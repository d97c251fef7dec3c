/** The outbox as the client keeps it: files it creates once, sidecars and markers it rewrites, and the flush loop. */
module OutboxStore {
  import opened Wrappers
  import opened Retry
  import opened Receipts
  import opened Outbox
  import Flushes

  /** The position of an item in a sorted listing. */
  function Insert(items: seq<Item>, item: Item): seq<Item> {
    if items == [] || Before(item, items[0]) then [item] + items else [items[0]] + Insert(items[1..], item)
  }

  predicate Sorted(items: seq<Item>) {
    forall i, j :: 0 <= i < j < |items| ==> Before(items[i], items[j])
  }

  lemma {:induction false} InsertSorts(items: seq<Item>, item: Item)
    requires Sorted(items) && forall other :: other in items ==>
      other.file.kind == item.file.kind && other.file != item.file
    ensures Sorted(Insert(items, item))
    ensures forall other :: other in Insert(items, item) <==> other in items || other == item
  {
    var result := Insert(items, item);
    if items != [] && !Before(item, items[0]) {
      assert items == [items[0]] + items[1..];
      InsertSorts(items[1..], item);
      BeforeTotal(item, items[0]);
      forall j | 0 < j < |result|
        ensures Before(result[0], result[j])
      {
        assert result[j] in Insert(items[1..], item);
      }
    } else if items != [] {
      forall j | 0 < j < |result|
        ensures Before(item, result[j])
      {
        if j > 1 {
          BeforeTransitive(item, items[0], result[j]);
        }
      }
    }
  }

  lemma ListGrows(items: seq<Item>, files: map<File, Content>, left: set<File>, kind: Kind, file: File)
    requires Lists(items, files - left, kind) && file in left && file in files && file.kind == kind
    ensures Lists(Insert(items, ItemOf(file, files[file])), files - (left - {file}), kind)
  {
    var item, more := ItemOf(file, files[file]), files - (left - {file});
    var result := Insert(items, item);
    InsertSorts(items, item);
    forall i | 0 <= i < |result|
      ensures result[i].file in more && result[i].file.kind == kind
      ensures result[i] == ItemOf(result[i].file, more[result[i].file])
    {
      assert result[i] in result;
    }
  }

  /** Nothing is added or changed, and a file is gone only if it was sent and a valid receipt for it came back. */
  ghost predicate RemovedByReceipt(before: map<File, Content>, after: map<File, Content>, sends: seq<(Item, Disk)>,
                                   ctx: Context) {
    && (forall f :: f in after ==> f in before && after[f] == before[f])
    && (forall f :: f in before && f !in after ==>
          && Verdict(before[f], TurnOf(ctx, f).response).None?
          && exists i :: 0 <= i < |sends| && sends[i].0.file == f)
  }

  lemma FlushRemovesByReceipt(disk: Disk, items: seq<Item>, ctx: Context, predecessors: seq<Item>)
    ensures var p := Flush(disk, items, ctx.(predecessors := predecessors));
      RemovedByReceipt(disk.files, p.disk.files, p.sends, ctx)
  {
    var behind := ctx.(predecessors := predecessors);
    Flushes.FlushAccounts(disk, items, behind);
    assert forall f :: TurnOf(behind, f) == TurnOf(ctx, f);
  }

  /** A conflict with an envelope of the same name is an error to the caller. */
  datatype Delivery = Conflict | Queued | Synchronized

  class OutboxStore {
    var files: map<File, Content>
    var notes: map<File, Note>
    var markers: map<string, Marker>
    var auth: Auth

    constructor ()
      ensures Contents() == Disk(map[], map[], map[], NoAuth)
    {
      files, notes, markers, auth := map[], map[], map[], NoAuth;
    }

    function Contents(): Disk
      reads this
    {
      Disk(files, notes, markers, auth)
    }

    /** Creates a file once: creating it again succeeds only with the same content, and changes nothing. */
    method ImmutableEnvelope(file: File, content: Content) returns (accepted: bool)
      modifies this`files
      ensures accepted <==> (file !in old(files) || old(files)[file] == content)
      ensures files == if accepted then old(files)[file := content] else old(files)
      ensures forall f :: f in old(files) ==> f in files && files[f] == old(files)[f]
    {
      if file in files {
        return files[file] == content;
      }
      files := files[file := content];
      accepted := true;
    }

    /** The sorted listing of one queue. */
    method QueueItems(kind: Kind) returns (items: seq<Item>)
      ensures Lists(items, files, kind)
    {
      items := [];
      var left := set f | f in files && f.kind == kind;
      while left != {}
        invariant forall f :: f in left ==> f in files && f.kind == kind
        invariant Lists(items, files - left, kind)
        decreases |left|
      {
        var file :| file in left;
        ListGrows(items, files, left, kind, file);
        items := Insert(items, ItemOf(file, files[file]));
        left := left - {file};
      }
      assert files - left == files;
    }

    /** One turn of the flush loop. */
    method FlushOne(item: Item, ctx: Context, before: Result, count: nat, ghost sent: seq<(Item, Disk)>)
      returns (result: Result, attempts: nat, stopped: bool, ghost sends: seq<(Item, Disk)>)
      modifies this
      ensures Shows(FlushItem(Progress(old(Contents()), before, count, false, sent), item, ctx), result, attempts,
                    stopped, sends)
    {
      var turn := TurnOf(ctx, item.file);
      result, attempts, stopped, sends := before, count, false, sent;
      if attempts >= MAX_ATTEMPTS || turn.late {
        stopped := true;
        return;
      }
      if item.lane in ctx.busy {
        result := result.(blocked := result.blocked + 1);
        return;
      }
      if item.file !in files {
        return;
      }
      if Corrupt(Contents(), item) {
        markers := markers[item.lane := Marker(item.file, BlockedProtocol)];
        result := result.(blocked := result.blocked + 1);
        return;
      }
      var sidecar := SidecarOf(Contents(), item.file);
      var preceded := FindPredecessor(item, ctx.predecessors);
      if preceded || OwnedByOther(Contents(), item) {
        var code := if preceded then PendingPredecessor else LaneGap;
        notes := notes[item.file := Note(sidecar.(state := BlockedGap, error := Some(code)))];
        result := result.(blocked := result.blocked + 1);
        return;
      }
      if Held(sidecar, ctx.credential, turn.now) {
        result := result.(blocked := result.blocked + 1);
        return;
      }
      var failure := LocalFailure(Contents(), item, sidecar);
      if failure.Some? {
        result, stopped := Reschedule(item, failure.value, sidecar, ctx, result);
      } else {
        sends := sends + [(item, Contents())];
        result, stopped := SendItem(item, sidecar, ctx, result, attempts, sent);
        attempts := attempts + 1;
      }
    }

    ghost predicate Shows(p: Progress, result: Result, attempts: nat, stopped: bool, sends: seq<(Item, Disk)>)
      reads this
    {
      Contents() == p.disk && result == p.result && attempts == p.attempts && stopped == p.stopped && sends == p.sends
    }

    /** The attempt is counted on disk before it is made; a valid receipt removes the envelope, then its traces. */
    method SendItem(item: Item, sidecar: Sidecar<Content>, ctx: Context, before: Result, count: nat,
                    ghost sent: seq<(Item, Disk)>)
      returns (result: Result, stopped: bool)
      requires item.file in files && sidecar == SidecarOf(Contents(), item.file) && sidecar.attempts >= 0
      modifies this
      ensures Shows(Send(Progress(old(Contents()), before, count, false, sent), item, ctx), result, count + 1, stopped,
                    sent + [(item, old(Contents()))])
    {
      var content := files[item.file];
      notes := notes[item.file := Note(sidecar.(state := Pending, attempts := sidecar.attempts + 1,
                                                hash := item.hash))];
      var failure := Verdict(content, TurnOf(ctx, item.file).response);
      if failure.Some? {
        result, stopped := Reschedule(item, failure.value, sidecar, ctx, before);
        return;
      }
      auth := NoAuth;
      files := files - {item.file};
      notes := notes - {item.file};
      markers := markers - {item.lane};
      result, stopped := before.(flushed := before.flushed + 1), false;
    }

    /** A failed delivery: the schedule goes into the sidecar, and the lane is marked with this file. */
    method Reschedule(item: Item, failure: Failure, sidecar: Sidecar<Content>, ctx: Context, before: Result)
      returns (result: Result, stopped: bool)
      requires sidecar.attempts >= 0
      modifies this
      ensures Contents() == Rescheduled(old(Contents()), item, failure, sidecar, TurnOf(ctx, item.file), ctx.credential)
      ensures stopped == (Classify(failure) == PausedAuth)
      ensures result == if Classify(failure) == Quarantined then before.(quarantined := before.quarantined + 1)
                        else before.(blocked := before.blocked + 1)
    {
      var turn := TurnOf(ctx, item.file);
      var next := RetryState(failure, sidecar, turn.failedAt, turn.rng, ctx.credential).(hash := item.hash);
      notes := notes[item.file := Note(next)];
      markers := markers[item.lane := Marker(item.file, next.state)];
      result := if next.state == Quarantined then before.(quarantined := before.quarantined + 1)
                else before.(blocked := before.blocked + 1);
      stopped := next.state == PausedAuth;
      if stopped {
        auth := Paused(ctx.credential);
      }
    }

    /** Whether an earlier item of the lane is still on disk. */
    method FindPredecessor(item: Item, predecessors: seq<Item>) returns (found: bool)
      ensures found <==> Preceded(Contents(), item, predecessors)
    {
      for i := 0 to |predecessors|
        invariant forall k :: 0 <= k < i ==>
          !(predecessors[k].lane == item.lane && predecessors[k].time < item.time && predecessors[k].file in files)
      {
        var other := predecessors[i];
        if other.lane == item.lane && other.time < item.time && other.file in files {
          return true;
        }
      }
      found := false;
    }

    /** A whole flush of a listing. */
    method FlushQueue(items: seq<Item>, ctx: Context) returns (result: Result, ghost sends: seq<(Item, Disk)>)
      modifies this
      ensures var p := Flush(old(Contents()), items, ctx);
        Contents() == p.disk && result == p.result && sends == p.sends
    {
      result, sends := Result(|items|, 0, 0, 0), [];
      if PausesAll(auth, ctx.credential) {
        result := result.(blocked := |items|);
        return;
      }
      var i, attempts, stopped := 0, 0, false;
      while i < |items| && !stopped
        invariant 0 <= i <= |items|
        invariant FlushAll(Progress(Contents(), result, attempts, stopped, sends), items[i..], ctx)
               == FlushAll(Start(old(Contents()), items), items, ctx)
      {
        ghost var rest := items[i..];
        result, attempts, stopped, sends := FlushOne(items[i], ctx, result, attempts, sends);
        assert rest[0] == items[i] && rest[1..] == items[i + 1..];
        i := i + 1;
      }
    }

    /** Flushes one queue behind the items of the other; an interruption leaves the items after it untouched. */
    method FlushKind(kind: Kind, ctx: Context, interrupted: Option<nat>)
      returns (result: Result, ghost items: seq<Item>, ghost others: seq<Item>, ghost sends: seq<(Item, Disk)>)
      modifies this
      ensures Lists(items, old(files), kind) && Lists(others, old(files), if kind == Event then Injection else Event)
      ensures var reached := if interrupted.Some? && interrupted.value < |items| then
        items[..interrupted.value] else items;
        var p := Flush(old(Contents()), reached, ctx.(predecessors := others));
        Contents() == p.disk && result == p.result && sends == p.sends
      ensures RemovedByReceipt(old(files), files, sends, ctx)
    {
      var queue := QueueItems(kind);
      var predecessors := QueueItems(if kind == Event then Injection else Event);
      items, others := queue, predecessors;
      if interrupted.Some? && interrupted.value < |queue| {
        queue := queue[..interrupted.value];
      }
      FlushRemovesByReceipt(Contents(), queue, ctx, predecessors);
      result, sends := FlushQueue(queue, ctx.(predecessors := predecessors));
    }

    /**
      Queues an event and flushes; if the flush is interrupted by an error, the event is queued again. The
      event ends up in the outbox, or a valid receipt for it came back; and so for every other file.
     */
    method SubmitEvent(content: Content, ctx: Context, interrupted: Option<nat>)
      returns (delivery: Delivery, ghost sends: seq<(Item, Disk)>)
      requires content.Envelope?
      modifies this
      ensures var file := File(Event, content.eventId);
        && (delivery == Conflict <==> file in old(files) && old(files)[file] != content)
        && (delivery == Conflict ==> Contents() == old(Contents()))
        && (delivery == Queued ==> file in files && files[file] == content)
        && (delivery == Synchronized ==>
              && file !in files && Verdict(content, TurnOf(ctx, file).response).None?
              && exists i :: 0 <= i < |sends| && sends[i].0.file == file)
        && (interrupted.Some? && delivery != Conflict ==> delivery == Queued)
        && (forall f :: f in files && f != file ==> f in old(files) && files[f] == old(files)[f])
        && (forall f :: f in old(files) && f !in files ==> Verdict(old(files)[f], TurnOf(ctx, f).response).None?)
    {
      sends := [];
      var file := File(Event, content.eventId);
      var accepted := ImmutableEnvelope(file, content);
      if !accepted {
        return Conflict, sends;
      }
      ghost var items, others;
      var result;
      result, items, others, sends := FlushKind(Event, ctx, interrupted);
      if interrupted.Some? {
        accepted := ImmutableEnvelope(file, content);
        assert accepted;
        return Queued, sends;
      }
      delivery := if file in files then Queued else Synchronized;
    }
  }
}
