/** Where lane order and progress end: arrivals that sort before a marked head, and lanes that stay closed. */
module LaneLimits {
  import opened Wrappers
  import opened Retry
  import opened Receipts
  import opened Outbox
  import opened LaneOrder
  import M = Mishaps
  import A = Arrivals

  // ---------------------------------------------------------------- late arrivals

  /** The invariant behind the order survives an arrival between flushes exactly when it is in time. */
  lemma ArrivalKeepsIff(disk: Disk, file: File, content: Content)
    requires Ordered(disk) && file !in disk.files
    ensures Ordered(disk.(files := disk.files[file := content])) <==> InTime(disk, file, content)
  {
    var after := disk.(files := disk.files[file := content]);
    if InTime(disk, file, content) {
      ArrivalKeeps(disk, file, content);
    } else if Ordered(after) {
      LateIsUnordered(disk, file, content);
    }
  }

  lemma LateIsUnordered(disk: Disk, file: File, content: Content)
    requires Ordered(disk) && file !in disk.files && Ordered(disk.(files := disk.files[file := content]))
    ensures InTime(disk, file, content)
  {
    var after, lane := disk.(files := disk.files[file := content]), LaneOf(content);
    forall l | l in disk.markers && disk.markers[l].Marker?
      ensures MarkerOk(disk, l, disk.markers[l]) && MarkerOk(after, l, after.markers[l])
    {
    }
    if lane in disk.markers && disk.markers[lane].Marker? && disk.markers[lane].owner in disk.files {
      var owner := disk.markers[lane].owner;
      assert MarkerOk(disk, lane, disk.markers[lane]) && MarkerOk(after, lane, after.markers[lane]);
      if owner.kind == file.kind {
        assert Neighbours(after, file, owner);
        BeforeTotal(Entry(after, file), Entry(after, owner));
      }
    }
    assert file in disk.notes ==> NoteOk(after, file, after.notes[file]);
    HeadsAsItComes(disk, file, content);
  }

  lemma HeadsAsItComes(disk: Disk, file: File, content: Content)
    requires file !in disk.files && Ordered(disk.(files := disk.files[file := content]))
    ensures forall l :: l in disk.markers && disk.markers[l].Marker? && disk.markers[l].owner == file ==>
      && l == LaneOf(content)
      && ((file in disk.notes && !Usable(disk.notes[file])) ||
          forall g :: g in disk.files && SameLane(g, disk.files[g], file, content) ==>
            !Before(Entry(disk, g), ItemOf(file, content)))
  {
    var after := disk.(files := disk.files[file := content]);
    forall l | l in disk.markers && disk.markers[l].Marker? && disk.markers[l].owner == file
      ensures l == LaneOf(content) && (Stuck(after, file) || Heads(after, file))
    {
      assert MarkerOk(after, l, after.markers[l]);
    }
    if Heads(after, file) {
      forall g | g in disk.files && SameLane(g, disk.files[g], file, content)
        ensures !Before(Entry(disk, g), ItemOf(file, content))
      {
        assert Neighbours(after, g, file);
      }
    }
  }

  // ---------------------------------------------------------------- closed lanes

  /** The marker names a file whose sidecar cannot be used. */
  predicate Jammed(disk: Disk, lane: string) {
    lane in disk.markers && disk.markers[lane].Marker? && Stuck(disk, disk.markers[lane].owner)
  }

  /** It names a file whose sidecar cannot be used, or this one, which is gone. */
  predicate Shut(disk: Disk, lane: string, f: File) {
    Jammed(disk, lane) ||
    (lane in disk.markers && disk.markers[lane].Marker? && disk.markers[lane].owner == f && f !in disk.files)
  }

  predicate Closed(disk: Disk, lane: string) {
    lane in disk.markers && disk.markers[lane].Marker? && Shut(disk, lane, disk.markers[lane].owner)
  }

  ghost predicate NoneOf(sends: seq<(Item, Disk)>, lane: string) {
    forall i :: 0 <= i < |sends| ==> sends[i].0.lane != lane
  }

  /** An item of the lane is not the one its marker names, or has an unusable sidecar itself. */
  lemma OwnItemLeavesShut(p: Progress, item: Item, ctx: Context, mishap: M.Mishap, f: File)
    requires Shut(p.disk, item.lane, f)
    ensures var p' := M.TurnWith(p, item, ctx, mishap); Shut(p'.disk, item.lane, f) && p'.sends == p.sends
  {
    if item.file in p.disk.files && !Corrupt(p.disk, item) {
      assert OwnedByOther(p.disk, item);
    }
  }

  /** An item of another lane leaves the marker alone, and the unusable sidecar of the file it names. */
  lemma OtherItemLeavesShut(p: Progress, item: Item, ctx: Context, mishap: M.Mishap, lane: string, f: File)
    requires Shut(p.disk, lane, f) && item.lane != lane
    ensures var p' := M.TurnWith(p, item, ctx, mishap);
      && Shut(p'.disk, lane, f) && (Jammed(p.disk, lane) ==> Jammed(p'.disk, lane))
      && p'.sends in {p.sends, p.sends + [(item, p.disk)]}
  {
    var owner, p' := p.disk.markers[lane].owner, M.TurnWith(p, item, ctx, mishap);
    M.SentAtMost(p, item, ctx, mishap);
    M.MarkersElsewhere(p, item, ctx, mishap, lane);
    M.FilesElsewhere(p, item, ctx, mishap, owner);
    assert M.Get(p'.disk.markers, lane) == Some(p.disk.markers[lane]);
    if Jammed(p.disk, lane) {
      M.NotesElsewhere(p, item, ctx, mishap, owner);
      assert M.Get(p'.disk.notes, owner) == Some(p.disk.notes[owner]);
      assert M.Get(p'.disk.files, owner) == Some(p.disk.files[owner]);
    } else {
      assert M.Get(p'.disk.files, f) == None;
    }
  }

  lemma {:induction false} FlushLeavesShut(p: Progress, items: seq<Item>, ctx: Context, around: seq<A.Around>,
                                           lane: string, f: File)
    requires Shut(p.disk, lane, f) && NoneOf(p.sends, lane) && forall a :: a in around ==> f !in a.batch
    ensures var p' := A.FlushAmid(p, items, ctx, around); Shut(p'.disk, lane, f) && NoneOf(p'.sends, lane)
    decreases |items|
  {
    if items != [] && !p.stopped {
      var item, first := items[0], A.First(around);
      var q := p.(disk := A.Add(p.disk, first.batch));
      assert Shut(q.disk, lane, f);
      if item.lane == lane {
        OwnItemLeavesShut(q, item, ctx, first.mishap, f);
      } else {
        OtherItemLeavesShut(q, item, ctx, first.mishap, lane, f);
      }
      FlushLeavesShut(A.Turned(p, item, ctx, first), items[1..], ctx, A.Later(around), lane, f);
    }
  }

  /** The step does not put this file back; otherwise it may be any arrival, damage, or flush of any listing. */
  ghost predicate NotPutBack(s: Step, f: File) {
    && (s.Arrive? ==> s.file != f)
    && (s.FlushQueue? ==> forall a :: a in s.around ==> f !in a.batch)
  }

  lemma StepLeavesShut(disk: Disk, s: Step, lane: string, f: File)
    requires Shut(disk, lane, f) && NotPutBack(s, f)
    ensures Shut(Next(disk, s), lane, f)
    ensures s.FlushQueue? ==> NoneOf(A.FlushDuring(disk, s.items, s.ctx, s.around).sends, lane)
  {
    if s.FlushQueue? {
      FlushLeavesShut(Start(disk, s.items), s.items, s.ctx, s.around, lane, f);
    }
  }

  lemma {:induction false} RunLeavesShut(disk: Disk, steps: seq<Step>, lane: string, f: File)
    requires Shut(disk, lane, f) && forall s :: s in steps ==> NotPutBack(s, f)
    ensures Shut(Run(disk, steps), lane, f)
    decreases |steps|
  {
    if steps != [] {
      assert steps[0] in steps && forall s :: s in steps[1..] ==> s in steps;
      StepLeavesShut(disk, steps[0], lane, f);
      RunLeavesShut(Next(disk, steps[0]), steps[1..], lane, f);
    }
  }

  /**
    A closed lane stays closed: after any run that does not put back the file its marker names, no flush
    sends anything of the lane, whoever flushes and however long after.
   */
  lemma ClosedLaneStays(disk: Disk, steps: seq<Step>, flush: Step, lane: string)
    requires Closed(disk, lane) && flush.FlushQueue?
    requires forall s :: s in steps || s == flush ==> NotPutBack(s, disk.markers[lane].owner)
    ensures Closed(Run(disk, steps), lane)
    ensures NoneOf(A.FlushDuring(Run(disk, steps), flush.items, flush.ctx, flush.around).sends, lane)
  {
    var f := disk.markers[lane].owner;
    RunLeavesShut(disk, steps, lane, f);
    StepLeavesShut(Run(disk, steps), flush, lane, f);
  }

  /**
    A delivery cut short closes its lane exactly when the envelope is removed by then, and its lane is marked:
    by an earlier failure of this envelope, or by the worker itself, which records a failed operation even
    when the envelope it failed to clear up after is gone.
   */
  lemma CutShortCloses(p: Progress, item: Item, ctx: Context, mishap: M.Mishap)
    requires Ready(p.disk, item) && M.Possible(p, item, ctx, mishap)
    ensures Closed(M.TurnWith(p, item, ctx, mishap).disk, item.lane) <==>
      !Present(mishap.point) && (item.lane in p.disk.markers || mishap.DiesUnpaused? || mishap.Fails?)
  {
    PointTraces(p.disk, item, mishap.point);
    if Present(mishap.point) {
      OpenStays(p, item, ctx, mishap);
    }
  }

  lemma OpenStays(p: Progress, item: Item, ctx: Context, mishap: M.Mishap)
    requires Ready(p.disk, item) && M.Possible(p, item, ctx, mishap) && Present(mishap.point)
    ensures !Closed(M.TurnWith(p, item, ctx, mishap).disk, item.lane)
  {
  }

  // ---------------------------------------------------------------- quarantine

  /** The marker names a queued file of the lane whose state is final. */
  predicate Final(disk: Disk, f: File) {
    && f in disk.files && f in disk.notes && Usable(disk.notes[f]) && Terminal(disk.notes[f].sidecar.state)
    && var lane := LaneOf(disk.files[f]);
    lane in disk.markers && disk.markers[lane].Marker? && disk.markers[lane].owner == f
  }

  /** No item of the other queue, in its lane, is earlier. */
  predicate Unpreceded(f: File, content: Content, ctx: Context) {
    forall other :: other in ctx.predecessors && other.lane == LaneOf(content) ==> other.time >= ItemOf(f, content).time
  }

  /**
    A final state is not final for good: its turn in a flush takes it away exactly when an earlier item of
    its lane is still in the other queue.
   */
  lemma FinalUnlessPreceded(p: Progress, f: File, ctx: Context)
    requires Final(p.disk, f) && p.attempts < MAX_ATTEMPTS && !TurnOf(ctx, f).late && ctx.busy == {}
    ensures var p' := FlushItem(p, Entry(p.disk, f), ctx);
      && (Final(p'.disk, f) <==> !Preceded(p.disk, Entry(p.disk, f), ctx.predecessors))
      && (!Final(p'.disk, f) ==> p'.disk.notes[f].sidecar.state == BlockedGap)
  {
  }

  /** The lane of this file waits for it, or for one whose sidecar cannot be used. */
  predicate Stopped(disk: Disk, f: File, content: Content) {
    && f in disk.files && disk.files[f] == content
    && (Final(disk, f) || Jammed(disk, LaneOf(content)))
  }

  /** Its own turn, and those of its lane, leave it stopped. */
  lemma OwnItemLeavesStopped(p: Progress, item: Item, ctx: Context, mishap: M.Mishap, f: File, content: Content)
    requires Stopped(p.disk, f, content) && Unpreceded(f, content, ctx) && item.lane == LaneOf(content)
    requires item.file == f ==> item == Entry(p.disk, f)
    ensures var p' := M.TurnWith(p, item, ctx, mishap); Stopped(p'.disk, f, content) && p'.sends == p.sends
  {
    if item.file in p.disk.files && !Corrupt(p.disk, item) {
      if item.file == f {
        assert !Preceded(p.disk, item, ctx.predecessors);
      } else {
        assert OwnedByOther(p.disk, item);
      }
    }
  }

  /** Items of other lanes do not concern it. */
  lemma OtherItemLeavesStopped(p: Progress, item: Item, ctx: Context, mishap: M.Mishap, f: File, content: Content)
    requires Stopped(p.disk, f, content) && item.lane != LaneOf(content) && item.file != f
    ensures Stopped(M.TurnWith(p, item, ctx, mishap).disk, f, content)
    ensures M.TurnWith(p, item, ctx, mishap).sends in {p.sends, p.sends + [(item, p.disk)]}
  {
    var lane, p' := LaneOf(content), M.TurnWith(p, item, ctx, mishap);
    M.SentAtMost(p, item, ctx, mishap);
    M.FilesElsewhere(p, item, ctx, mishap, f);
    assert M.Get(p'.disk.files, f) == Some(content);
    if Jammed(p.disk, lane) {
      OtherItemLeavesShut(p, item, ctx, mishap, lane, f);
    } else {
      M.NotesElsewhere(p, item, ctx, mishap, f);
      M.MarkersElsewhere(p, item, ctx, mishap, lane);
      assert M.Get(p'.disk.notes, f) == Some(p.disk.notes[f]);
      assert M.Get(p'.disk.markers, lane) == Some(p.disk.markers[lane]);
    }
  }

  lemma {:induction false} FlushLeavesStopped(p: Progress, items: seq<Item>, ctx: Context, around: seq<A.Around>,
                                              f: File, content: Content)
    requires Stopped(p.disk, f, content) && Unpreceded(f, content, ctx) && NoneOf(p.sends, LaneOf(content))
    requires forall item :: item in items && item.file == f ==> item == ItemOf(f, content)
    requires forall a :: a in around ==> f !in a.batch
    ensures var p' := A.FlushAmid(p, items, ctx, around);
      Stopped(p'.disk, f, content) && NoneOf(p'.sends, LaneOf(content))
    decreases |items|
  {
    if items != [] && !p.stopped {
      var item, first := items[0], A.First(around);
      var q := p.(disk := A.Add(p.disk, first.batch));
      assert item in items && Stopped(q.disk, f, content);
      if item.lane == LaneOf(content) {
        OwnItemLeavesStopped(q, item, ctx, first.mishap, f, content);
      } else {
        OtherItemLeavesStopped(q, item, ctx, first.mishap, f, content);
      }
      FlushLeavesStopped(A.Turned(p, item, ctx, first), items[1..], ctx, A.Later(around), f, content);
    }
  }

  /** The step neither replaces this envelope nor flushes behind an earlier item of the other queue. */
  ghost predicate Undisturbed(s: Step, f: File, content: Content) {
    && NotPutBack(s, f)
    && (s.FlushQueue? ==>
          && Unpreceded(f, content, s.ctx)
          && (forall item :: item in s.items && item.file == f ==> item == ItemOf(f, content)))
  }

  lemma StepLeavesStopped(disk: Disk, s: Step, f: File, content: Content)
    requires Stopped(disk, f, content) && Undisturbed(s, f, content)
    ensures Stopped(Next(disk, s), f, content)
    ensures s.FlushQueue? ==> NoneOf(A.FlushDuring(disk, s.items, s.ctx, s.around).sends, LaneOf(content))
  {
    if s.FlushQueue? {
      FlushLeavesStopped(Start(disk, s.items), s.items, s.ctx, s.around, f, content);
    }
  }

  lemma {:induction false} RunLeavesStopped(disk: Disk, steps: seq<Step>, f: File, content: Content)
    requires Stopped(disk, f, content) && forall s :: s in steps ==> Undisturbed(s, f, content)
    ensures Stopped(Run(disk, steps), f, content)
    decreases |steps|
  {
    if steps != [] {
      assert steps[0] in steps && forall s :: s in steps[1..] ==> s in steps;
      StepLeavesStopped(disk, steps[0], f, content);
      RunLeavesStopped(Next(disk, steps[0]), steps[1..], f, content);
    }
  }

  /**
    With that case excluded, quarantine is permanent and closes the lane: after any run, no flush sends
    anything of it, from either queue, and the envelope stays.
   */
  lemma FinalStopsLane(disk: Disk, steps: seq<Step>, f: File, content: Content, flush: Step)
    requires Stopped(disk, f, content) && flush.FlushQueue?
    requires forall s :: s in steps || s == flush ==> Undisturbed(s, f, content)
    ensures Stopped(Run(disk, steps), f, content)
    ensures NoneOf(A.FlushDuring(Run(disk, steps), flush.items, flush.ctx, flush.around).sends, LaneOf(content))
  {
    RunLeavesStopped(disk, steps, f, content);
    StepLeavesStopped(Run(disk, steps), flush, f, content);
  }
}
