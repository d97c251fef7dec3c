/**
  Lane order: flushes of either queue never send an envelope past an earlier one of its lane. What makes
  it true between flushes is that a waiting sidecar is always named by its lane's marker.
 */
module LaneOrder {
  import opened Wrappers
  import opened Retry
  import opened Receipts
  import opened Outbox
  import M = Mishaps
  import A = Arrivals

  predicate Waits(note: Note) {
    Usable(note) &&
    (Terminal(note.sidecar.state) || note.sidecar.state in {RetryWait, PausedAuth} || note.sidecar.nextRetryAt.Some?)
  }

  predicate Neighbours(disk: Disk, f: File, g: File)
    requires f in disk.files && g in disk.files
  {
    SameLane(f, disk.files[f], g, disk.files[g])
  }

  /** No file of its queue and lane comes before this one. */
  ghost predicate Heads(disk: Disk, f: File)
    requires f in disk.files
  {
    forall g :: g in disk.files && Neighbours(disk, g, f) ==> !Before(Entry(disk, g), Entry(disk, f))
  }

  /** The marker of a lane names a file that is gone, or one of that lane: its head, or a file that is stuck. */
  ghost predicate MarkerOk(disk: Disk, lane: string, marker: Marker) {
    && marker.Marker?
    && (marker.owner in disk.files ==>
          LaneOf(disk.files[marker.owner]) == lane && (Stuck(disk, marker.owner) || Heads(disk, marker.owner)))
  }

  /** The waiting sidecar of a queued file is named by the marker of its lane, unless a stuck file holds the lane. */
  ghost predicate NoteOk(disk: Disk, f: File, note: Note) {
    f in disk.files && Waits(note) ==>
      var lane := LaneOf(disk.files[f]);
      && lane in disk.markers && disk.markers[lane].Marker?
      && (disk.markers[lane].owner == f || Stuck(disk, disk.markers[lane].owner))
  }

  ghost predicate Ordered(disk: Disk) {
    && (forall l :: l in disk.markers ==> MarkerOk(disk, l, disk.markers[l]))
    && (forall f :: f in disk.notes ==> NoteOk(disk, f, disk.notes[f]))
  }

  /** The items still to come are the sorted rest of the queue. */
  ghost predicate Rest(disk: Disk, rest: seq<Item>, kind: Kind) {
    && (forall i :: 0 <= i < |rest| ==> rest[i].file.kind == kind && rest[i].file in disk.files
                                        && rest[i] == Entry(disk, rest[i].file))
    && (forall i, j :: 0 <= i < j < |rest| ==> Before(rest[i], rest[j]))
    && (forall f, i :: f in disk.files && f.kind == kind && 0 <= i < |rest| && Entry(disk, f) !in rest ==>
          Before(Entry(disk, f), rest[i]))
  }

  /** A file the flush has passed holds its lane back: by a predecessor, or by a marker no later item can clear. */
  ghost predicate HeldBack(disk: Disk, f: File, rest: seq<Item>, predecessors: seq<Item>)
    requires f in disk.files
  {
    var lane := LaneOf(disk.files[f]);
    || Preceded(disk, Entry(disk, f), predecessors)
    || (lane in disk.markers && disk.markers[lane].Marker?
        && (disk.markers[lane].owner !in disk.files || Stuck(disk, disk.markers[lane].owner)
            || Entry(disk, disk.markers[lane].owner) !in rest))
  }

  ghost predicate Passed(disk: Disk, rest: seq<Item>, kind: Kind, predecessors: seq<Item>) {
    forall f :: f in disk.files && f.kind == kind && Entry(disk, f) !in rest ==> HeldBack(disk, f, rest, predecessors)
  }

  /** What every send satisfies: nothing of its lane is passed over, in its own queue or among the predecessors. */
  ghost predicate InOrder(item: Item, disk: Disk, predecessors: seq<Item>) {
    && item.file in disk.files && item == Entry(disk, item.file)
    && Heads(disk, item.file)
    && !Preceded(disk, item, predecessors)
  }

  // ---------------------------------------------------------------- one item

  /** An item that passes the checks on predecessors and owner heads its lane: nothing passed is left in it. */
  lemma ClearedIsHead(disk: Disk, rest: seq<Item>, kind: Kind, predecessors: seq<Item>)
    requires rest != [] && Rest(disk, rest, kind) && Passed(disk, rest, kind, predecessors)
    requires !Corrupt(disk, rest[0]) && !Preceded(disk, rest[0], predecessors) && !OwnedByOther(disk, rest[0])
    ensures InOrder(rest[0], disk, predecessors)
    ensures forall f :: f in disk.files && f.kind == kind && LaneOf(disk.files[f]) == rest[0].lane ==>
      Entry(disk, f) in rest
  {
    var item := rest[0];
    forall f | f in disk.files && f.kind == kind && LaneOf(disk.files[f]) == item.lane
      ensures Entry(disk, f) in rest
    {
      assert Entry(disk, f) in rest || (HeldBack(disk, f, rest, predecessors) && Before(Entry(disk, f), item));
    }
    forall g | g in disk.files && Neighbours(disk, g, item.file)
      ensures !Before(Entry(disk, g), item)
    {
      BeforeTotal(Entry(disk, g), item);
    }
  }

  /** And no other sidecar of the lane is waiting. */
  lemma ClearedWaitsAlone(disk: Disk, item: Item, f: File)
    requires Ordered(disk) && item.file in disk.files && item == Entry(disk, item.file)
    requires !Corrupt(disk, item) && !OwnedByOther(disk, item)
    requires f in disk.notes && f in disk.files && Waits(disk.notes[f]) && LaneOf(disk.files[f]) == item.lane
    ensures f == item.file && item.lane in disk.markers && disk.markers[item.lane].owner == f
  {
    assert NoteOk(disk, f, disk.notes[f]) && MarkerOk(disk, item.lane, disk.markers[item.lane]);
  }

  // ---------------------------------------------------------------- what each branch leaves

  ghost predicate Sound(disk: Disk, rest: seq<Item>, kind: Kind, predecessors: seq<Item>) {
    Ordered(disk) && Rest(disk, rest, kind) && Passed(disk, rest, kind, predecessors)
  }

  /** The lane is handed to a file whose sidecar is unusable. */
  lemma CorruptKeeps(disk: Disk, rest: seq<Item>, kind: Kind, predecessors: seq<Item>)
    requires rest != [] && Sound(disk, rest, kind, predecessors) && Corrupt(disk, rest[0])
    ensures Sound(WithMarker(disk, rest[0].lane, Marker(rest[0].file, BlockedProtocol)), rest[1..], kind, predecessors)
  {
    var item := rest[0];
    var after := WithMarker(disk, item.lane, Marker(item.file, BlockedProtocol));
    assert item.lane in disk.markers ==> MarkerOk(disk, item.lane, disk.markers[item.lane]);
    assert Stuck(after, item.file);
    MarkerMoves(disk, after, item, rest, kind, predecessors);
  }

  /** Only the marker of the item's lane, and its own sidecar, may differ; the marker names the item. */
  ghost predicate MarkedWith(disk: Disk, after: Disk, item: Item) {
    && after.files == disk.files && item.lane in after.markers && after.markers[item.lane].Marker?
    && after.markers[item.lane].owner == item.file
    && OnlyMarkerOf(disk, after, item.lane) && OnlyNoteOf(disk, after, item.file)
    && (Stuck(disk, item.file) ==> Stuck(after, item.file))
  }

  ghost predicate OnlyMarkerOf(disk: Disk, after: Disk, lane: string) {
    && (forall l :: l != lane ==> (l in after.markers <==> l in disk.markers))
    && (forall l :: l in after.markers && l != lane ==> after.markers[l] == disk.markers[l])
  }

  /** No other sidecar of the item's lane is waiting. */
  ghost predicate WaitsAlone(disk: Disk, item: Item) {
    forall f :: f in disk.notes && f in disk.files && Waits(disk.notes[f]) && LaneOf(disk.files[f]) == item.lane ==>
      f == item.file
  }

  ghost predicate OnlyNoteOf(disk: Disk, after: Disk, file: File) {
    && (forall f :: f != file ==> (f in after.notes <==> f in disk.notes))
    && (forall f :: f in after.notes && f != file ==> after.notes[f] == disk.notes[f])
  }

  /** Marking a lane with one of its files keeps everything when that file is stuck, or heads it and waits alone. */
  lemma MarkerMoves(disk: Disk, after: Disk, item: Item, rest: seq<Item>, kind: Kind, predecessors: seq<Item>)
    requires rest != [] && item == rest[0] && Sound(disk, rest, kind, predecessors) && MarkedWith(disk, after, item)
    requires Stuck(after, item.file) || (Heads(disk, item.file) && !Stuck(disk, item.file) && WaitsAlone(disk, item))
    ensures Sound(after, rest[1..], kind, predecessors)
  {
    MarkedOrder(disk, after, item);
    RestShrinks(disk, after, rest, kind);
    HeadNotInTail(rest);
    forall f | f in after.files && f.kind == kind && Entry(after, f) !in rest[1..]
      ensures HeldBack(after, f, rest[1..], predecessors)
    {
      if LaneOf(disk.files[f]) != item.lane {
        assert Entry(disk, f) !in rest;
        assert HeldBack(disk, f, rest, predecessors);
      }
    }
  }

  lemma MarkedOrder(disk: Disk, after: Disk, item: Item)
    requires Ordered(disk) && item.file in disk.files && item == Entry(disk, item.file) && MarkedWith(disk, after, item)
    requires Stuck(after, item.file) || (Heads(disk, item.file) && !Stuck(disk, item.file) && WaitsAlone(disk, item))
    ensures Ordered(after)
  {
    forall l | l in after.markers
      ensures MarkerOk(after, l, after.markers[l])
    {
      if l != item.lane {
        assert MarkerOk(disk, l, disk.markers[l]);
      }
    }
    forall f | f in after.notes
      ensures NoteOk(after, f, after.notes[f])
    {
      if f != item.file {
        assert NoteOk(disk, f, disk.notes[f]);
      }
    }
  }

  lemma HeadNotInTail(rest: seq<Item>)
    requires rest != [] && forall i, j :: 0 <= i < j < |rest| ==> Before(rest[i], rest[j])
    ensures rest[0] !in rest[1..]
  {
    forall i | 0 <= i < |rest[1..]|
      ensures rest[1..][i] != rest[0]
    {
      BeforeTotal(rest[0], rest[0]);
      assert Before(rest[0], rest[i + 1]);
    }
  }

  lemma RestShrinks(disk: Disk, after: Disk, rest: seq<Item>, kind: Kind)
    requires rest != [] && Rest(disk, rest, kind)
    requires after.files == disk.files || after.files == disk.files - {rest[0].file}
    ensures Rest(after, rest[1..], kind)
  {
    HeadNotInTail(rest);
    forall i | 0 <= i < |rest[1..]|
      ensures rest[1..][i].file in after.files && rest[1..][i] == Entry(after, rest[1..][i].file)
    {
      assert rest[1..][i] == rest[i + 1];
      assert Before(rest[0], rest[i + 1]);
    }
    forall f, i | f in after.files && f.kind == kind && 0 <= i < |rest[1..]| && Entry(after, f) !in rest[1..]
      ensures Before(Entry(after, f), rest[1..][i])
    {
      assert rest[1..][i] == rest[i + 1];
      if Entry(disk, f) in rest {
        assert Entry(disk, f) == rest[0];
      }
    }
  }

  /** The item's sidecar is usable, and waits only if it did before. */
  predicate NoMoreWaiting(disk: Disk, after: Disk, file: File) {
    file in after.notes ==>
      Usable(after.notes[file]) && (Waits(after.notes[file]) ==> file in disk.notes && Waits(disk.notes[file]))
  }

  /** Changing only the sidecar of the item, to a usable one that waits no more than it did, keeps the order. */
  lemma NoteMoves(disk: Disk, after: Disk, rest: seq<Item>, kind: Kind, predecessors: seq<Item>)
    requires rest != [] && Sound(disk, rest, kind, predecessors) && !Stuck(disk, rest[0].file)
    requires after.files == disk.files && after.markers == disk.markers && OnlyNoteOf(disk, after, rest[0].file)
    requires NoMoreWaiting(disk, after, rest[0].file) && HeldBack(after, rest[0].file, rest[1..], predecessors)
    ensures Sound(after, rest[1..], kind, predecessors)
  {
    NotedOrder(disk, after, rest[0].file);
    RestShrinks(disk, after, rest, kind);
    forall f | f in after.files && f.kind == kind && Entry(after, f) !in rest[1..]
      ensures HeldBack(after, f, rest[1..], predecessors)
    {
      if f != rest[0].file {
        NotedHeldBack(disk, after, f, rest, kind, predecessors);
      }
    }
  }

  lemma NotedHeldBack(disk: Disk, after: Disk, f: File, rest: seq<Item>, kind: Kind, predecessors: seq<Item>)
    requires rest != [] && Passed(disk, rest, kind, predecessors) && !Stuck(disk, rest[0].file)
    requires after.files == disk.files && after.markers == disk.markers && OnlyNoteOf(disk, after, rest[0].file)
    requires f in disk.files && f.kind == kind && Entry(disk, f) !in rest
    ensures HeldBack(after, f, rest[1..], predecessors)
  {
    assert HeldBack(disk, f, rest, predecessors);
  }

  lemma NotedOrder(disk: Disk, after: Disk, file: File)
    requires Ordered(disk) && file in disk.files && !Stuck(disk, file)
    requires after.files == disk.files && after.markers == disk.markers
    requires OnlyNoteOf(disk, after, file) && NoMoreWaiting(disk, after, file)
    ensures Ordered(after)
  {
    forall l | l in after.markers
      ensures MarkerOk(after, l, after.markers[l])
    {
      assert MarkerOk(disk, l, disk.markers[l]);
    }
    forall f | f in after.notes
      ensures NoteOk(after, f, after.notes[f])
    {
      assert f in disk.notes ==> NoteOk(disk, f, disk.notes[f]);
    }
  }

  /** The marker that opens a gap cannot be cleared by a later item: its file comes earlier, or is stuck. */
  lemma OwnerHoldsBack(disk: Disk, rest: seq<Item>, kind: Kind, predecessors: seq<Item>)
    requires rest != [] && Ordered(disk) && Rest(disk, rest, kind) && OwnedByOther(disk, rest[0])
    ensures HeldBack(disk, rest[0].file, rest[1..], predecessors)
  {
    var item := rest[0];
    var owner := disk.markers[item.lane].owner;
    assert MarkerOk(disk, item.lane, disk.markers[item.lane]);
    forall i | owner in disk.files && !Stuck(disk, owner) && 0 <= i < |rest[1..]|
      ensures rest[1..][i] != Entry(disk, owner)
    {
      assert Before(rest[0], rest[i + 1]);
      if owner.kind == kind {
        assert !Before(item, Entry(disk, owner));
      }
    }
  }

  /** A gap leaves the lane held: by the predecessor, or by the marker of another file. */
  lemma GapKeeps(p: Progress, rest: seq<Item>, kind: Kind, predecessors: seq<Item>, code: ErrorCode)
    requires rest != [] && Sound(p.disk, rest, kind, predecessors) && !Corrupt(p.disk, rest[0])
    requires Preceded(p.disk, rest[0], predecessors) || OwnedByOther(p.disk, rest[0])
    requires Acceptable(code)
    ensures Sound(Gap(p, rest[0], code).disk, rest[1..], kind, predecessors)
  {
    var after := Gap(p, rest[0], code).disk;
    if OwnedByOther(p.disk, rest[0]) {
      OwnerHoldsBack(p.disk, rest, kind, predecessors);
    }
    NoteMoves(p.disk, after, rest, kind, predecessors);
  }

  /** An item held back by its own state is the one its lane is marked with. */
  lemma HeldKeeps(disk: Disk, rest: seq<Item>, kind: Kind, predecessors: seq<Item>, credential: string, now: real)
    requires rest != [] && Sound(disk, rest, kind, predecessors) && !Corrupt(disk, rest[0])
    requires !OwnedByOther(disk, rest[0])
    requires Held(SidecarOf(disk, rest[0].file), credential, now)
    ensures Sound(disk, rest[1..], kind, predecessors)
  {
    ClearedWaitsAlone(disk, rest[0], rest[0].file);
    HeadNotInTail(rest);
    NoteMoves(disk, disk, rest, kind, predecessors);
  }

  /** Nothing stands in the way of the item. */
  ghost predicate Cleared(disk: Disk, rest: seq<Item>, kind: Kind, predecessors: seq<Item>) {
    && rest != [] && Sound(disk, rest, kind, predecessors) && !Corrupt(disk, rest[0])
    && !Preceded(disk, rest[0], predecessors) && !OwnedByOther(disk, rest[0])
    && forall other :: other in predecessors ==> other.file.kind != kind
  }

  lemma ClearedFacts(disk: Disk, rest: seq<Item>, kind: Kind, predecessors: seq<Item>)
    requires Cleared(disk, rest, kind, predecessors)
    ensures InOrder(rest[0], disk, predecessors) && WaitsAlone(disk, rest[0]) && !Stuck(disk, rest[0].file)
    ensures SidecarOf(disk, rest[0].file).attempts >= 0
    ensures rest[0].lane in disk.markers ==>
      disk.markers[rest[0].lane].Marker? && disk.markers[rest[0].lane].owner == rest[0].file
  {
    ClearedIsHead(disk, rest, kind, predecessors);
    forall f | f in disk.notes && f in disk.files && Waits(disk.notes[f]) && LaneOf(disk.files[f]) == rest[0].lane
      ensures f == rest[0].file
    {
      ClearedWaitsAlone(disk, rest[0], f);
    }
  }

  lemma FailureKeeps(disk: Disk, ahead: Disk, rest: seq<Item>, kind: Kind, predecessors: seq<Item>, failure: Failure,
                     turn: Turn, credential: string)
    requires Cleared(disk, rest, kind, predecessors)
    requires ahead.files == disk.files && ahead.markers == disk.markers && OnlyNoteOf(disk, ahead, rest[0].file)
    ensures SidecarOf(disk, rest[0].file).attempts >= 0
    ensures Sound(Rescheduled(ahead, rest[0], failure, SidecarOf(disk, rest[0].file), turn, credential), rest[1..],
                  kind, predecessors)
  {
    var item := rest[0];
    var after := Rescheduled(ahead, item, failure, SidecarOf(disk, item.file), turn, credential);
    ClearedFacts(disk, rest, kind, predecessors);
    RescheduledMarks(disk, ahead, item, failure, turn, credential);
    MarkerMoves(disk, after, item, rest, kind, predecessors);
  }

  lemma RescheduledMarks(disk: Disk, ahead: Disk, item: Item, failure: Failure, turn: Turn, credential: string)
    requires item.file in disk.files && !Stuck(disk, item.file) && SidecarOf(disk, item.file).attempts >= 0
    requires ahead.files == disk.files && ahead.markers == disk.markers && OnlyNoteOf(disk, ahead, item.file)
    ensures MarkedWith(disk, Rescheduled(ahead, item, failure, SidecarOf(disk, item.file), turn, credential), item)
  {
  }

  /** The envelope is gone; its sidecar may stay behind, and its lane's marker if it names the envelope. */
  ghost predicate GoneFrom(disk: Disk, after: Disk, item: Item) {
    && after.files == disk.files - {item.file}
    && OnlyMarkerOf(disk, after, item.lane) && OnlyNoteOf(disk, after, item.file)
    && (item.lane in after.markers ==>
          after.markers[item.lane].Marker? && after.markers[item.lane].owner == item.file)
  }

  /** A delivered envelope leaves nothing in its lane waiting behind it, whatever of its traces is left. */
  lemma DeliveryKeeps(disk: Disk, after: Disk, rest: seq<Item>, kind: Kind, predecessors: seq<Item>)
    requires Cleared(disk, rest, kind, predecessors) && GoneFrom(disk, after, rest[0])
    ensures Sound(after, rest[1..], kind, predecessors)
  {
    var item := rest[0];
    ClearedIsHead(disk, rest, kind, predecessors);
    ClearedFacts(disk, rest, kind, predecessors);
    GoneOrder(disk, after, item);
    RestShrinks(disk, after, rest, kind);
    forall f | f in after.files && f.kind == kind && Entry(after, f) !in rest[1..]
      ensures HeldBack(after, f, rest[1..], predecessors)
    {
      assert Entry(disk, f) != item;
      assert Entry(disk, f) !in rest;
      assert HeldBack(disk, f, rest, predecessors);
    }
  }

  lemma GoneOrder(disk: Disk, after: Disk, item: Item)
    requires Ordered(disk) && item.file in disk.files && item == Entry(disk, item.file)
    requires WaitsAlone(disk, item) && !Stuck(disk, item.file) && GoneFrom(disk, after, item)
    ensures Ordered(after)
  {
    forall l | l in after.markers
      ensures MarkerOk(after, l, after.markers[l])
    {
      assert l != item.lane ==> MarkerOk(disk, l, disk.markers[l]);
    }
    forall f | f in after.notes
      ensures NoteOk(after, f, after.notes[f])
    {
      assert f != item.file ==> NoteOk(disk, f, disk.notes[f]);
    }
  }

  /** A waiting sidecar of a queued item is in order when its lane is marked with it. */
  lemma MarkedNoteOrder(disk: Disk, after: Disk, item: Item)
    requires Ordered(disk) && item.file in disk.files && item == Entry(disk, item.file) && !Stuck(disk, item.file)
    requires item.lane in disk.markers && disk.markers[item.lane].Marker? && disk.markers[item.lane].owner == item.file
    requires after.files == disk.files && after.markers == disk.markers && OnlyNoteOf(disk, after, item.file)
    requires WaitsAlone(disk, item)
    ensures Ordered(after)
  {
    forall l | l in after.markers
      ensures MarkerOk(after, l, after.markers[l])
    {
      assert MarkerOk(disk, l, disk.markers[l]);
    }
    forall f | f in after.notes
      ensures NoteOk(after, f, after.notes[f])
    {
      assert f != item.file ==> NoteOk(disk, f, disk.notes[f]);
    }
  }

  // ---------------------------------------------------------------- a flush

  /** The context of a flush that no other flush overlaps, with the other queue as predecessor. */
  ghost predicate Alone(ctx: Context, kind: Kind) {
    ctx.busy == {} && forall other :: other in ctx.predecessors ==> other.file.kind != kind
  }

  ghost predicate AllInOrder(p: Progress, predecessors: seq<Item>) {
    forall i :: 0 <= i < |p.sends| ==> InOrder(p.sends[i].0, p.sends[i].1, predecessors)
  }

  lemma ItemKeeps(p: Progress, rest: seq<Item>, kind: Kind, ctx: Context)
    requires rest != [] && Sound(p.disk, rest, kind, ctx.predecessors) && Alone(ctx, kind)
    requires AllInOrder(p, ctx.predecessors)
    ensures var p' := FlushItem(p, rest[0], ctx);
      && Ordered(p'.disk) && AllInOrder(p', ctx.predecessors)
      && (!p'.stopped ==> Sound(p'.disk, rest[1..], kind, ctx.predecessors))
  {
    var item, disk := rest[0], p.disk;
    if p.attempts >= MAX_ATTEMPTS || TurnOf(ctx, item.file).late {
    } else if Corrupt(disk, item) {
      CorruptKeeps(disk, rest, kind, ctx.predecessors);
    } else if Preceded(disk, item, ctx.predecessors) {
      GapKeeps(p, rest, kind, ctx.predecessors, PendingPredecessor);
    } else if OwnedByOther(disk, item) {
      GapKeeps(p, rest, kind, ctx.predecessors, LaneGap);
    } else {
      ClearedKeeps(p, rest, kind, ctx);
    }
  }

  lemma ClearedKeeps(p: Progress, rest: seq<Item>, kind: Kind, ctx: Context)
    requires Cleared(p.disk, rest, kind, ctx.predecessors) && Alone(ctx, kind)
    requires AllInOrder(p, ctx.predecessors)
    requires p.attempts < MAX_ATTEMPTS && !TurnOf(ctx, rest[0].file).late
    ensures var p' := FlushItem(p, rest[0], ctx);
      Sound(p'.disk, rest[1..], kind, ctx.predecessors) && AllInOrder(p', ctx.predecessors)
  {
    var item, disk := rest[0], p.disk;
    var sidecar, turn := SidecarOf(disk, item.file), TurnOf(ctx, item.file);
    ClearedFacts(disk, rest, kind, ctx.predecessors);
    if Held(sidecar, ctx.credential, turn.now) {
      HeldKeeps(disk, rest, kind, ctx.predecessors, ctx.credential, turn.now);
    } else if LocalFailure(disk, item, sidecar).Some? {
      FailureKeeps(disk, disk, rest, kind, ctx.predecessors, LocalFailure(disk, item, sidecar).value, turn,
                   ctx.credential);
    } else if Verdict(disk.files[item.file], turn.response).None? {
      DeliveryKeeps(disk, Remove(WriteAhead(disk, item), item), rest, kind, ctx.predecessors);
    } else {
      FailureKeeps(disk, WriteAhead(disk, item), rest, kind, ctx.predecessors,
                   Verdict(disk.files[item.file], turn.response).value, turn, ctx.credential);
    }
  }

  // ---------------------------------------------------------------- a turn cut short

  predicate Present(point: M.Point) {
    point.Begun? || point.Ahead? || point.Lifted?
  }

  /** The worker dies with a waiting sidecar written, its envelope still queued and its lane not marked. */
  predicate LosesTrack(p: Progress, item: Item, ctx: Context, mishap: M.Mishap) {
    M.Possible(p, item, ctx, mishap) && mishap.DiesUnmarked? && Present(mishap.point) && item.lane !in p.disk.markers
  }

  /** What a cleared item is, apart from the flush it is in. */
  ghost predicate Ready(disk: Disk, item: Item) {
    && Ordered(disk) && item.file in disk.files && item == Entry(disk, item.file) && Heads(disk, item.file)
    && WaitsAlone(disk, item) && !Stuck(disk, item.file) && SidecarOf(disk, item.file).attempts >= 0
    && (item.lane in disk.markers ==>
          disk.markers[item.lane].Marker? && disk.markers[item.lane].owner == item.file)
  }

  lemma PointTraces(disk: Disk, item: Item, point: M.Point)
    requires Ready(disk, item)
    ensures var at := M.DiskAt(disk, item, point);
      if Present(point) then at.files == disk.files && at.markers == disk.markers && OnlyNoteOf(disk, at, item.file)
      else GoneFrom(disk, at, item)
  {
  }

  lemma PointKeeps(disk: Disk, item: Item, point: M.Point)
    requires Ready(disk, item)
    ensures Ordered(M.DiskAt(disk, item, point))
  {
    PointTraces(disk, item, point);
    if Present(point) {
      NotedOrder(disk, M.DiskAt(disk, item, point), item.file);
    } else {
      GoneOrder(disk, M.DiskAt(disk, item, point), item);
    }
  }

  /** Dying leaves the disk in order, exactly unless the worker loses track of its own failure. */
  lemma DyingKeepsIff(p: Progress, item: Item, ctx: Context, mishap: M.Mishap)
    requires Ready(p.disk, item) && M.Possible(p, item, ctx, mishap) && !mishap.Fails?
    ensures Ordered(M.TurnWith(p, item, ctx, mishap).disk) <==> !LosesTrack(p, item, ctx, mishap)
  {
    if mishap.Dies? {
      PointKeeps(p.disk, item, mishap.point);
    } else {
      var next := M.Scheduled(p, item, ctx, M.Trouble(p, item, ctx, mishap));
      if mishap.DiesUnmarked? {
        NotedAtIff(p.disk, item, mishap.point, next);
      } else {
        MarkedAt(p.disk, item, mishap.point, next);
      }
    }
  }

  /** The sidecar of a failure without its marker: in order exactly if the envelope is gone, or its lane was marked. */
  lemma NotedAtIff(disk: Disk, item: Item, point: M.Point, next: Sidecar<Content>)
    requires Ready(disk, item) && Waits(Note.Note(next))
    ensures Ordered(WithNote(M.DiskAt(disk, item, point), item.file, next))
       <==> !Present(point) || item.lane in disk.markers
  {
    var after := WithNote(M.DiskAt(disk, item, point), item.file, next);
    PointTraces(disk, item, point);
    if !Present(point) {
      GoneOrder(disk, after, item);
    } else if item.lane in disk.markers {
      MarkedNoteOrder(disk, after, item);
    } else {
      assert !NoteOk(after, item.file, after.notes[item.file]);
    }
  }

  lemma MarkedAt(disk: Disk, item: Item, point: M.Point, next: Sidecar<Content>)
    requires Ready(disk, item)
    ensures var noted := WithNote(M.DiskAt(disk, item, point), item.file, next);
      Ordered(WithMarker(noted, item.lane, Marker(item.file, next.state)))
  {
    var noted := WithNote(M.DiskAt(disk, item, point), item.file, next);
    var after := WithMarker(noted, item.lane, Marker(item.file, next.state));
    PointTraces(disk, item, point);
    if !Present(point) {
      GoneOrder(disk, after, item);
    } else {
      MarkedOrder(disk, after, item);
    }
  }

  /** A failed operation keeps everything: its lane is marked, or closed for the rest of the flush. */
  lemma FailingKeeps(p: Progress, rest: seq<Item>, kind: Kind, ctx: Context, point: M.Point)
    requires Cleared(p.disk, rest, kind, ctx.predecessors) && Ready(p.disk, rest[0])
    requires M.Possible(p, rest[0], ctx, M.Fails(point))
    ensures Sound(M.TurnWith(p, rest[0], ctx, M.Fails(point)).disk, rest[1..], kind, ctx.predecessors)
  {
    var item, disk, turn := rest[0], p.disk, TurnOf(ctx, rest[0].file);
    var at := M.DiskAt(disk, item, point);
    PointTraces(disk, item, point);
    if Present(point) {
      FailureKeeps(disk, at, rest, kind, ctx.predecessors, M.BROKEN, turn, ctx.credential);
    } else {
      var after := Rescheduled(at, item, M.BROKEN, SidecarOf(disk, item.file), turn, ctx.credential);
      GoneMarked(disk, at, item, turn, ctx.credential);
      DeliveryKeeps(disk, after, rest, kind, ctx.predecessors);
    }
  }

  lemma GoneMarked(disk: Disk, at: Disk, item: Item, turn: Turn, credential: string)
    requires GoneFrom(disk, at, item) && SidecarOf(disk, item.file).attempts >= 0
    ensures GoneFrom(disk, Rescheduled(at, item, M.BROKEN, SidecarOf(disk, item.file), turn, credential), item)
  {
  }

  /** A turn keeps the order, cut short or not, unless its worker loses track of its own failure. */
  lemma TurnKeeps(p: Progress, rest: seq<Item>, kind: Kind, ctx: Context, mishap: M.Mishap)
    requires rest != [] && Sound(p.disk, rest, kind, ctx.predecessors) && Alone(ctx, kind)
    requires AllInOrder(p, ctx.predecessors) && !LosesTrack(p, rest[0], ctx, mishap)
    ensures var p' := M.TurnWith(p, rest[0], ctx, mishap);
      && Ordered(p'.disk) && AllInOrder(p', ctx.predecessors)
      && (!p'.stopped ==> Sound(p'.disk, rest[1..], kind, ctx.predecessors))
  {
    if M.Possible(p, rest[0], ctx, mishap) {
      assert Cleared(p.disk, rest, kind, ctx.predecessors);
      ClearedFacts(p.disk, rest, kind, ctx.predecessors);
      M.SentAtMost(p, rest[0], ctx, mishap);
      assert Ready(p.disk, rest[0]);
      if mishap.Fails? {
        FailingKeeps(p, rest, kind, ctx, mishap.point);
      } else {
        DyingKeepsIff(p, rest[0], ctx, mishap);
      }
    } else {
      ItemKeeps(p, rest, kind, ctx);
    }
  }

  /** No worker of the flush loses track. */
  predicate KeepsTrack(p: Progress, items: seq<Item>, ctx: Context, around: seq<A.Around>)
    decreases |items|
  {
    items == [] || p.stopped ||
    (&& !LosesTrack(p, items[0], ctx, A.First(around).mishap)
     && KeepsTrack(M.TurnWith(p, items[0], ctx, A.First(around).mishap), items[1..], ctx, A.Later(around)))
  }

  lemma {:induction false} FlushKeeps(p: Progress, rest: seq<Item>, kind: Kind, ctx: Context, around: seq<A.Around>)
    requires Ordered(p.disk) && AllInOrder(p, ctx.predecessors) && Alone(ctx, kind) && KeepsTrack(p, rest, ctx, around)
    requires !p.stopped ==> Sound(p.disk, rest, kind, ctx.predecessors)
    ensures var p' := A.FlushAlone(p, rest, ctx, around); Ordered(p'.disk) && AllInOrder(p', ctx.predecessors)
    decreases |rest|
  {
    if rest != [] && !p.stopped {
      TurnKeeps(p, rest, kind, ctx, A.First(around).mishap);
      FlushKeeps(M.TurnWith(p, rest[0], ctx, A.First(around).mishap), rest[1..], kind, ctx, A.Later(around));
    }
  }

  lemma ListingIsSound(disk: Disk, items: seq<Item>, kind: Kind, predecessors: seq<Item>)
    requires Ordered(disk) && Lists(items, disk.files, kind)
    ensures Sound(disk, items, kind, predecessors)
  {
  }

  // ---------------------------------------------------------------- arrivals during a flush

  /** A new file does not sort before the head that its lane is marked with. */
  predicate BehindMarked(disk: Disk, file: File, content: Content) {
    var lane := LaneOf(content);
    lane in disk.markers && disk.markers[lane].Marker? && disk.markers[lane].owner in disk.files ==>
      var owner := disk.markers[lane].owner;
      Stuck(disk, owner) || owner.kind != file.kind || Before(Entry(disk, owner), ItemOf(file, content))
  }

  /** No sidecar or marker of this file was left behind. */
  predicate Unnamed(disk: Disk, g: File) {
    g !in disk.notes && forall l :: l in disk.markers && disk.markers[l].Marker? ==> disk.markers[l].owner != g
  }

  /** New files do not sort before the marked head of their lane, nor before what the flush has still listed of it. */
  ghost predicate InPlace(disk: Disk, batch: A.Batch, items: seq<Item>) {
    forall g :: g in batch ==>
      && Unnamed(disk, g) && BehindMarked(disk, g, batch[g])
      && forall item :: item in items && item.file.kind == g.kind && item.lane == LaneOf(batch[g]) ==>
           Before(item, ItemOf(g, batch[g]))
  }

  ghost predicate AllInPlace(p: Progress, items: seq<Item>, ctx: Context, around: seq<A.Around>)
    decreases |items|
  {
    items == [] || p.stopped ||
    (&& InPlace(p.disk, A.First(around).batch, items)
     && AllInPlace(A.Turned(p, items[0], ctx, A.First(around)), items[1..], ctx, A.Later(around)))
  }

  /** What a send sees beyond its flush, in its lane and queue, sorts after it. */
  ghost predicate Ranked(send: (Item, Disk), amid: (Item, Disk)) {
    forall g :: g in amid.1.files && g !in send.1.files && g.kind == send.0.file.kind
                && LaneOf(amid.1.files[g]) == send.0.lane ==>
      Before(send.0, ItemOf(g, amid.1.files[g]))
  }

  ghost predicate AllRanked(p: Progress, q: Progress) {
    |p.sends| == |q.sends| && forall i :: 0 <= i < |p.sends| ==> Ranked(p.sends[i], q.sends[i])
  }

  /** The turn of an item writes the marker of its lane for it, or leaves or removes it. */
  lemma MarkerAfter(p: Progress, item: Item, ctx: Context, mishap: M.Mishap)
    ensures var marker := M.Get(M.TurnWith(p, item, ctx, mishap).disk.markers, item.lane);
      marker in {None, M.Get(p.disk.markers, item.lane)} || (marker.value.Marker? && marker.value.owner == item.file)
  {
    if !M.Possible(p, item, ctx, mishap) && item.file in p.disk.files && !Corrupt(p.disk, item) {
      SendMarker(p, item, ctx);
    }
  }

  lemma SendMarker(p: Progress, item: Item, ctx: Context)
    requires item.file in p.disk.files && SidecarOf(p.disk, item.file).attempts >= 0
    ensures var marker := M.Get(Send(p, item, ctx).disk.markers, item.lane);
      marker == None || (marker.value.Marker? && marker.value.owner == item.file)
  {
  }

  lemma PlaceKept(p: Progress, extra: A.Batch, items: seq<Item>, ctx: Context, mishap: M.Mishap)
    requires items != [] && InPlace(p.disk, extra, items) && Ordered(p.disk)
    requires items[0].file in p.disk.files ==> items[0] == Entry(p.disk, items[0].file)
    requires items[0].file !in extra
    ensures InPlace(M.TurnWith(p, items[0], ctx, mishap).disk, extra, items[1..])
  {
    var item, p' := items[0], M.TurnWith(p, items[0], ctx, mishap);
    assert item in items && forall i :: i in items[1..] ==> i in items;
    forall g | g in extra
      ensures BehindMarked(p'.disk, g, extra[g]) && Unnamed(p'.disk, g)
    {
      MarkedStill(p, extra, items, ctx, mishap, g);
      UnnamedStill(p, item, ctx, mishap, g);
    }
  }

  lemma UnnamedStill(p: Progress, item: Item, ctx: Context, mishap: M.Mishap, g: File)
    requires Unnamed(p.disk, g) && item.file != g
    ensures Unnamed(M.TurnWith(p, item, ctx, mishap).disk, g)
  {
    var p' := M.TurnWith(p, item, ctx, mishap);
    M.NotesElsewhere(p, item, ctx, mishap, g);
    assert M.Get(p.disk.notes, g) == None;
    forall l | l in p'.disk.markers && p'.disk.markers[l].Marker?
      ensures p'.disk.markers[l].owner != g
    {
      if l == item.lane {
        MarkerAfter(p, item, ctx, mishap);
      } else {
        M.MarkersElsewhere(p, item, ctx, mishap, l);
      }
      assert M.Get(p'.disk.markers, l) == Some(p'.disk.markers[l]);
    }
  }

  lemma MarkedStill(p: Progress, extra: A.Batch, items: seq<Item>, ctx: Context, mishap: M.Mishap, g: File)
    requires items != [] && InPlace(p.disk, extra, items) && Ordered(p.disk) && g in extra
    requires items[0].file in p.disk.files ==> items[0] == Entry(p.disk, items[0].file)
    ensures BehindMarked(M.TurnWith(p, items[0], ctx, mishap).disk, g, extra[g])
  {
    var item, lane, p' := items[0], LaneOf(extra[g]), M.TurnWith(p, items[0], ctx, mishap);
    assert item in items;
    M.FilesShrink(p, item, ctx, mishap);
    if lane == item.lane {
      MarkerAfter(p, item, ctx, mishap);
    } else {
      M.MarkersElsewhere(p, item, ctx, mishap, lane);
    }
    if lane in p'.disk.markers && p'.disk.markers[lane].Marker? && p'.disk.markers[lane].owner in p'.disk.files {
      var owner := p'.disk.markers[lane].owner;
      if owner != item.file {
        M.NotesElsewhere(p, item, ctx, mishap, owner);
        assert M.Get(p.disk.markers, lane) == Some(p'.disk.markers[lane]);
      } else if lane != item.lane {
        assert MarkerOk(p.disk, lane, p.disk.markers[lane]);
      }
    }
  }

  // ---------------------------------------------------------------- runs

  datatype Step =
    | Arrive(file: File, content: Content)
    | Damage(damaged: File)
    | FlushQueue(kind: Kind, items: seq<Item>, ctx: Context, around: seq<A.Around>)

  /**
    A new file does not sort before the marked head of its lane. If it was there before, and a marker or a
    waiting sidecar of it was left behind, it comes back to its lane, as its head.
   */
  predicate InTime(disk: Disk, file: File, content: Content) {
    var lane, item := LaneOf(content), ItemOf(file, content);
    && BehindMarked(disk, file, content)
    && (forall l :: l in disk.markers && disk.markers[l].Marker? && disk.markers[l].owner == file ==>
          && l == lane
          && ((file in disk.notes && !Usable(disk.notes[file])) ||
              forall g :: g in disk.files && SameLane(g, disk.files[g], file, content) ==>
                !Before(Entry(disk, g), item)))
    && (file in disk.notes && Waits(disk.notes[file]) ==>
          && lane in disk.markers && disk.markers[lane].Marker?
          && (disk.markers[lane].owner == file || Stuck(disk, disk.markers[lane].owner)))
  }

  /**
    The steps of a run: arrivals in time, damage to sidecars, and flushes that do not overlap. While a flush
    is under way files may arrive, any operation may fail, and its worker may die at any point, but not
    between the sidecar and the marker of an unmarked lane.
   */
  ghost predicate Enabled(disk: Disk, s: Step) {
    match s
    case Arrive(file, content) => file !in disk.files && InTime(disk, file, content)
    case Damage(file) => file in disk.files
    case FlushQueue(kind, items, ctx, around) =>
      && Lists(items, disk.files, kind) && Alone(ctx, kind)
      && (PausesAll(disk.auth, ctx.credential) ||
          var start := Start(disk, items);
          && A.AllNew(start, items, ctx, around) && AllInPlace(start, items, ctx, around)
          && KeepsTrack(start, items, ctx, around))
  }

  /** A flush around which nothing happens is allowed. */
  lemma {:induction false} QuietIsEnabled(p: Progress, items: seq<Item>, ctx: Context)
    ensures A.AllNew(p, items, ctx, []) && AllInPlace(p, items, ctx, []) && KeepsTrack(p, items, ctx, [])
    decreases |items|
  {
    if items != [] && !p.stopped {
      assert A.Add(p.disk, map[]) == p.disk;
      QuietIsEnabled(FlushItem(p, items[0], ctx), items[1..], ctx);
    }
  }

  function Next(disk: Disk, s: Step): Disk {
    match s
    case Arrive(file, content) => disk.(files := disk.files[file := content])
    case Damage(file) => disk.(notes := disk.notes[file := Unreadable])
    case FlushQueue(_, items, ctx, around) => A.FlushDuring(disk, items, ctx, around).disk
  }

  function Run(disk: Disk, steps: seq<Step>): Disk
    decreases |steps|
  {
    if steps == [] then disk else Run(Next(disk, steps[0]), steps[1..])
  }

  ghost predicate AllEnabled(disk: Disk, steps: seq<Step>)
    decreases |steps|
  {
    steps == [] || (Enabled(disk, steps[0]) && AllEnabled(Next(disk, steps[0]), steps[1..]))
  }

  lemma ArrivalKeeps(disk: Disk, file: File, content: Content)
    requires Ordered(disk) && Enabled(disk, Arrive(file, content))
    ensures Ordered(Next(disk, Arrive(file, content)))
  {
    var after := Next(disk, Arrive(file, content));
    forall l | l in after.markers
      ensures MarkerOk(after, l, after.markers[l])
    {
      ArrivalMarker(disk, file, content, l);
    }
    forall f | f in after.notes
      ensures NoteOk(after, f, after.notes[f])
    {
      assert NoteOk(disk, f, disk.notes[f]);
    }
  }

  lemma ArrivalMarker(disk: Disk, file: File, content: Content, l: string)
    requires Ordered(disk) && Enabled(disk, Arrive(file, content)) && l in disk.markers
    ensures MarkerOk(Next(disk, Arrive(file, content)), l, disk.markers[l])
  {
    var after, owner := Next(disk, Arrive(file, content)), disk.markers[l].owner;
    assert MarkerOk(disk, l, disk.markers[l]);
    if owner in disk.files && !Stuck(disk, owner) && Neighbours(after, file, owner) {
      BeforeTotal(Entry(disk, owner), ItemOf(file, content));
    } else if owner == file {
      BeforeTotal(ItemOf(file, content), ItemOf(file, content));
    }
  }

  lemma DamageKeeps(disk: Disk, file: File)
    requires Ordered(disk) && file in disk.files
    ensures Ordered(Next(disk, Damage(file)))
  {
    var after := Next(disk, Damage(file));
    forall l | l in after.markers
      ensures MarkerOk(after, l, after.markers[l])
    {
      assert MarkerOk(disk, l, disk.markers[l]);
    }
    forall f | f in after.notes
      ensures NoteOk(after, f, after.notes[f])
    {
      assert f in disk.notes ==> NoteOk(disk, f, disk.notes[f]);
    }
  }

  lemma StepKeeps(disk: Disk, s: Step)
    requires Ordered(disk) && Enabled(disk, s)
    ensures Ordered(Next(disk, s))
    ensures s.FlushQueue? ==> AllInOrder(A.FlushDuring(disk, s.items, s.ctx, s.around), s.ctx.predecessors)
  {
    match s
    case Arrive(file, content) => ArrivalKeeps(disk, file, content);
    case Damage(file) => DamageKeeps(disk, file);
    case FlushQueue(kind, items, ctx, around) =>
      if !PausesAll(disk.auth, ctx.credential) {
        DuringKeeps(disk, items, kind, ctx, around);
      }
  }

  /** The flush with its arrivals, and without: in step, and every arrival in its place. */
  ghost predicate Abreast(p: Progress, q: Progress, extra: A.Batch, items: seq<Item>, ctx: Context) {
    A.InStep(p, q, extra, ctx) && InPlace(p.disk, extra, items) && AllRanked(p, q)
  }

  lemma TurnAbreast(p: Progress, q: Progress, extra: A.Batch, items: seq<Item>, kind: Kind, ctx: Context,
                    around: A.Around)
    requires items != [] && Sound(p.disk, items, kind, ctx.predecessors) && Abreast(p, q, extra, items, ctx)
    requires (forall item :: item in items ==> item.file !in extra)
    requires A.New(q.disk, around.batch, items, ctx.predecessors) && InPlace(q.disk, around.batch, items)
    ensures Abreast(M.TurnWith(p, items[0], ctx, around.mishap), A.Turned(q, items[0], ctx, around),
                    extra + around.batch, items[1..], ctx)
  {
    var more, q1 := extra + around.batch, q.(disk := A.Add(q.disk, around.batch));
    A.TurnInStep(p, q, extra, items, ctx, around);
    ArrivedInPlace(p, q, extra, items, ctx, around.batch);
    PlaceKept(p, more, items, ctx, around.mishap);
    M.SentAtMost(p, items[0], ctx, around.mishap);
    M.SentAtMost(q1, items[0], ctx, around.mishap);
    assert q1.disk.files == p.disk.files + more by {
      A.Associative(p.disk.files, extra, around.batch);
    }
    assert items[0] in items;
    assert Ranked((items[0], p.disk), (items[0], q1.disk));
  }

  lemma ArrivedInPlace(p: Progress, q: Progress, extra: A.Batch, items: seq<Item>, ctx: Context, batch: A.Batch)
    requires A.InStep(p, q, extra, ctx) && InPlace(p.disk, extra, items) && InPlace(q.disk, batch, items)
    requires A.New(q.disk, batch, items, ctx.predecessors)
    ensures InPlace(p.disk, extra + batch, items)
  {
    forall g | g in extra + batch
      ensures BehindMarked(p.disk, g, (extra + batch)[g]) && Unnamed(p.disk, g)
    {
      assert g in batch ==> BehindMarked(q.disk, g, batch[g]) && Unnamed(q.disk, g);
    }
  }

  lemma {:induction false} FlushAbreast(p: Progress, q: Progress, extra: A.Batch, items: seq<Item>, kind: Kind,
                                        ctx: Context, around: seq<A.Around>)
    requires Abreast(p, q, extra, items, ctx) && (forall item :: item in items ==> item.file !in extra)
    requires !p.stopped ==> Sound(p.disk, items, kind, ctx.predecessors)
    requires Alone(ctx, kind) && AllInOrder(p, ctx.predecessors) && KeepsTrack(p, items, ctx, around)
    requires A.AllNew(q, items, ctx, around) && AllInPlace(q, items, ctx, around)
    ensures Abreast(A.FlushAlone(p, items, ctx, around), A.FlushAmid(q, items, ctx, around),
                    extra + A.Taken(q, items, ctx, around), [], ctx)
    decreases |items|
  {
    if items == [] || p.stopped {
      assert extra + A.Taken(q, items, ctx, around) == extra;
    } else {
      var first, later := A.First(around), A.Later(around);
      var p', q' := M.TurnWith(p, items[0], ctx, first.mishap), A.Turned(q, items[0], ctx, first);
      TurnAbreast(p, q, extra, items, kind, ctx, first);
      A.TurnInStep(p, q, extra, items, ctx, first);
      TurnKeeps(p, items, kind, ctx, first.mishap);
      FlushAbreast(p', q', extra + first.batch, items[1..], kind, ctx, later);
      A.Unfolded(q, items, ctx, around);
      assert A.FlushAlone(p, items, ctx, around) == A.FlushAlone(p', items[1..], ctx, later);
      A.Associative(extra, first.batch, A.Taken(q', items[1..], ctx, later));
    }
  }

  /** What arrives in its place keeps the order of the disk, and of every send. */
  lemma DuringKeeps(disk: Disk, items: seq<Item>, kind: Kind, ctx: Context, around: seq<A.Around>)
    requires Ordered(disk) && Lists(items, disk.files, kind) && Alone(ctx, kind)
    requires var start := Start(disk, items);
      && A.AllNew(start, items, ctx, around) && AllInPlace(start, items, ctx, around)
      && KeepsTrack(start, items, ctx, around)
    ensures var q := A.FlushAmid(Start(disk, items), items, ctx, around);
      Ordered(q.disk) && AllInOrder(q, ctx.predecessors)
  {
    var start := Start(disk, items);
    ListingIsSound(disk, items, kind, ctx.predecessors);
    FlushKeeps(start, items, kind, ctx, around);
    assert A.Add(disk, map[]) == disk;
    FlushAbreast(start, start, map[], items, kind, ctx, around);
    var p, q := A.FlushAlone(start, items, ctx, around), A.FlushAmid(start, items, ctx, around);
    var extra := map[] + A.Taken(start, items, ctx, around);
    PlacedKeeps(p.disk, extra);
    forall i | 0 <= i < |q.sends|
      ensures InOrder(q.sends[i].0, q.sends[i].1, ctx.predecessors)
    {
      ShadowInOrder(p.sends[i], q.sends[i], ctx.predecessors);
    }
  }

  lemma ShadowInOrder(send: (Item, Disk), amid: (Item, Disk), predecessors: seq<Item>)
    requires InOrder(send.0, send.1, predecessors) && A.Shadows(send, amid, predecessors) && Ranked(send, amid)
    ensures InOrder(amid.0, amid.1, predecessors)
  {
    forall g | g in amid.1.files && Neighbours(amid.1, g, amid.0.file)
      ensures !Before(Entry(amid.1, g), Entry(amid.1, amid.0.file))
    {
      BeforeTotal(Entry(amid.1, g), Entry(amid.1, amid.0.file));
    }
  }

  lemma PlacedKeeps(disk: Disk, extra: A.Batch)
    requires Ordered(disk) && extra.Keys !! disk.files.Keys && InPlace(disk, extra, [])
    ensures Ordered(A.Add(disk, extra))
  {
    var after := A.Add(disk, extra);
    forall l | l in after.markers
      ensures MarkerOk(after, l, after.markers[l])
    {
      PlacedMarker(disk, extra, l);
    }
    forall f | f in after.notes
      ensures NoteOk(after, f, after.notes[f])
    {
      assert NoteOk(disk, f, disk.notes[f]);
      assert f in extra ==> Unnamed(disk, f);
    }
  }

  lemma PlacedMarker(disk: Disk, extra: A.Batch, l: string)
    requires Ordered(disk) && extra.Keys !! disk.files.Keys && InPlace(disk, extra, []) && l in disk.markers
    ensures MarkerOk(A.Add(disk, extra), l, disk.markers[l])
  {
    var after, owner := A.Add(disk, extra), disk.markers[l].owner;
    assert MarkerOk(disk, l, disk.markers[l]);
    assert owner in extra ==> Unnamed(disk, owner);
    if owner in disk.files && !Stuck(disk, owner) {
      forall g | g in after.files && Neighbours(after, g, owner) && g in extra
        ensures !Before(Entry(after, g), Entry(after, owner))
      {
        assert BehindMarked(disk, g, extra[g]);
        BeforeTotal(Entry(after, g), Entry(after, owner));
      }
    }
  }

  const EMPTY := Disk(map[], map[], map[], NoAuth)

  /**
    Lane order over whole runs: of arrivals in time, between flushes and during them, damaged sidecars, and
    flushes of both queues that do not overlap, whose operations may fail and whose workers may die wherever
    they do not lose track. In all of them an envelope is sent only when no earlier file of its lane and queue
    is on disk, and no predecessor of its lane with an earlier time.
   */
  lemma SendsInLaneOrder(steps: seq<Step>, flush: Step, i: nat)
    requires AllEnabled(EMPTY, steps) && flush.FlushQueue? && Enabled(Run(EMPTY, steps), flush)
    requires i < |A.FlushDuring(Run(EMPTY, steps), flush.items, flush.ctx, flush.around).sends|
    ensures var (item, disk) := A.FlushDuring(Run(EMPTY, steps), flush.items, flush.ctx, flush.around).sends[i];
      && item.file in disk.files
      && (forall g :: g in disk.files && g.kind == item.file.kind && Entry(disk, g).lane == item.lane
            ==> g == item.file || Before(item, Entry(disk, g)))
      && (forall other :: other in flush.ctx.predecessors && other.lane == item.lane && other.file in disk.files
            ==> item.time <= other.time)
  {
    RunKeeps(EMPTY, steps);
    var disk0 := Run(EMPTY, steps);
    StepKeeps(disk0, flush);
    var (item, disk) := A.FlushDuring(disk0, flush.items, flush.ctx, flush.around).sends[i];
    assert InOrder(item, disk, flush.ctx.predecessors);
    forall g | g in disk.files && g.kind == item.file.kind && Entry(disk, g).lane == item.lane
      ensures g == item.file || Before(item, Entry(disk, g))
    {
      BeforeTotal(item, Entry(disk, g));
    }
  }

  lemma {:induction false} RunKeeps(disk: Disk, steps: seq<Step>)
    requires Ordered(disk) && AllEnabled(disk, steps)
    ensures Ordered(Run(disk, steps))
    decreases |steps|
  {
    if steps != [] {
      StepKeeps(disk, steps[0]);
      RunKeeps(Next(disk, steps[0]), steps[1..]);
    }
  }
}
