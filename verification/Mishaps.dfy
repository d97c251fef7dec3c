/** A turn of a flush that is cut short: its worker dies, or one of its operations fails. */
module Mishaps {
  import opened Wrappers
  import opened Retry
  import opened Receipts
  import opened Outbox
  import Flushes

  /** How far a delivery has come: nothing written yet, counted, pause lifted, envelope removed, sidecar too. */
  datatype Point = Begun | Ahead | Lifted | Gone | Forgotten

  /**
    The worker dies, before, between or after the writes that record a failure; or an operation raises an
    error. An error while the failure is recorded ends the flush just as a death does.
   */
  datatype Mishap =
    | Safe
    | Dies(point: Point)
    | DiesUnmarked(point: Point)
    | DiesUnpaused(point: Point)
    | Fails(point: Point)

  /** The disk when the delivery has come that far. */
  function DiskAt(disk: Disk, item: Item, point: Point): Disk {
    var ahead := WriteAhead(disk, item);
    match point
    case Begun => disk
    case Ahead => ahead
    case Lifted => ahead.(auth := NoAuth)
    case Gone => ahead.(auth := NoAuth, files := ahead.files - {item.file})
    case Forgotten => ahead.(auth := NoAuth, files := ahead.files - {item.file}, notes := ahead.notes - {item.file})
  }

  /** The turn comes to the item and its checks let it be tried. */
  predicate Tried(p: Progress, item: Item, ctx: Context) {
    && p.attempts < MAX_ATTEMPTS && !TurnOf(ctx, item.file).late && item.lane !in ctx.busy && item.file in p.disk.files
    && !Corrupt(p.disk, item) && !Preceded(p.disk, item, ctx.predecessors) && !OwnedByOther(p.disk, item)
    && !Held(SidecarOf(p.disk, item.file), ctx.credential, TurnOf(ctx, item.file).now)
  }

  function Local(p: Progress, item: Item): Option<Failure> {
    LocalFailure(p.disk, item, SidecarOf(p.disk, item.file))
  }

  /** Nothing is written for an envelope that fails its own checks, and the clean-up is for confirmed ones only. */
  predicate Comes(p: Progress, item: Item, ctx: Context, point: Point)
    requires item.file in p.disk.files
  {
    match point
    case Begun => true
    case Ahead => Local(p, item).None?
    case _ => Local(p, item).None? && Verdict(p.disk.files[item.file], TurnOf(ctx, item.file).response).None?
  }

  predicate Possible(p: Progress, item: Item, ctx: Context, mishap: Mishap) {
    !mishap.Safe? && Tried(p, item, ctx) && Comes(p, item, ctx, mishap.point)
  }

  const BROKEN: Failure := Failure(NetworkError, None, NoTime)

  /** What is recorded: the failure of the delivery where it has one by then, else that of the operation. */
  function Trouble(p: Progress, item: Item, ctx: Context, mishap: Mishap): Failure
    requires Possible(p, item, ctx, mishap)
  {
    if mishap.Fails? then BROKEN
    else if mishap.point.Begun? && Local(p, item).Some? then Local(p, item).value
    else if mishap.point.Ahead? && Verdict(p.disk.files[item.file], TurnOf(ctx, item.file).response).Some?
      then Verdict(p.disk.files[item.file], TurnOf(ctx, item.file).response).value
    else BROKEN
  }

  /** The sidecar that records it. */
  function Scheduled(p: Progress, item: Item, ctx: Context, failure: Failure): Sidecar<Content>
    requires SidecarOf(p.disk, item.file).attempts >= 0
  {
    var turn := TurnOf(ctx, item.file);
    RetryState(failure, SidecarOf(p.disk, item.file), turn.failedAt, turn.rng, ctx.credential).(hash := item.hash)
  }

  /** The disk that a worker leaves when it dies there. */
  function LeftBy(p: Progress, item: Item, ctx: Context, mishap: Mishap): Disk
    requires Possible(p, item, ctx, mishap)
  {
    var disk := DiskAt(p.disk, item, mishap.point);
    var next := Scheduled(p, item, ctx, Trouble(p, item, ctx, mishap));
    match mishap
    case DiesUnmarked(_) => WithNote(disk, item.file, next)
    case DiesUnpaused(_) => WithMarker(WithNote(disk, item.file, next), item.lane, Marker(item.file, next.state))
    case _ => disk
  }

  function Logged(p: Progress, item: Item, point: Point): Progress {
    if point.Begun? then p else p.(attempts := p.attempts + 1, sends := p.sends + [(item, p.disk)])
  }

  /**
    A turn that may be cut short; a failed operation is recorded like a failed delivery, and the flush goes
    on. An attempt whose count could not be written is not counted here; the time limit, which may end the
    flush before any item, covers a flush that it ends one item earlier.
   */
  function TurnWith(p: Progress, item: Item, ctx: Context, mishap: Mishap): Progress {
    if !Possible(p, item, ctx, mishap) then FlushItem(p, item, ctx)
    else if mishap.Fails? then
      AfterFailure(Logged(p, item, mishap.point), item, DiskAt(p.disk, item, mishap.point), BROKEN, ctx)
    else Logged(p, item, mishap.point).(disk := LeftBy(p, item, ctx, mishap), stopped := true)
  }

  // ---------------------------------------------------------------- what it leaves alone

  /** Only the item's own marker, sidecar and envelope may differ, and its envelope may only be gone. */
  predicate OwnTraces(before: Disk, after: Disk, item: Item) {
    && after.markers - {item.lane} == before.markers - {item.lane}
    && after.notes - {item.file} == before.notes - {item.file}
    && after.files in {before.files, before.files - {item.file}}
  }

  lemma CutTraces(p: Progress, item: Item, ctx: Context, mishap: Mishap)
    requires Possible(p, item, ctx, mishap)
    ensures OwnTraces(p.disk, TurnWith(p, item, ctx, mishap).disk, item)
    ensures TurnWith(p, item, ctx, mishap).sends in {p.sends, p.sends + [(item, p.disk)]}
  {
    var disk, p1 := DiskAt(p.disk, item, mishap.point), Logged(p, item, mishap.point);
    PointTraces(p.disk, item, mishap.point);
    if mishap.Fails? {
      FailureTraces(p.disk, p1, item, disk, BROKEN, ctx);
    } else {
      var next := Scheduled(p, item, ctx, Trouble(p, item, ctx, mishap));
      RecordTraces(p.disk, disk, item, next, next.state);
    }
  }

  lemma PointTraces(disk: Disk, item: Item, point: Point)
    ensures OwnTraces(disk, DiskAt(disk, item, point), item)
  {
  }

  lemma RecordTraces(before: Disk, disk: Disk, item: Item, next: Sidecar<Content>, state: State)
    requires OwnTraces(before, disk, item)
    ensures var noted := WithNote(disk, item.file, next);
      && OwnTraces(before, noted, item)
      && OwnTraces(before, WithMarker(noted, item.lane, Marker(item.file, state)), item)
  {
  }

  lemma FailureTraces(before: Disk, p: Progress, item: Item, disk: Disk, failure: Failure, ctx: Context)
    requires OwnTraces(before, disk, item) && SidecarOf(p.disk, item.file).attempts >= 0
    ensures var p' := AfterFailure(p, item, disk, failure, ctx);
      OwnTraces(before, p'.disk, item) && p'.sends == p.sends
  {
  }

  function Get<K, V>(m: map<K, V>, k: K): Option<V> {
    if k in m then Some(m[k]) else None
  }

  lemma SameElsewhere<K, V>(m: map<K, V>, m': map<K, V>, own: K, k: K)
    requires m' - {own} == m - {own} && k != own
    ensures Get(m', k) == Get(m, k)
  {
    assert k in m - {own} <==> k in m' - {own};
    assert k in m ==> (m - {own})[k] == m[k];
    assert k in m' ==> (m' - {own})[k] == m'[k];
  }

  lemma SentAtMost(p: Progress, item: Item, ctx: Context, mishap: Mishap)
    ensures TurnWith(p, item, ctx, mishap).sends in {p.sends, p.sends + [(item, p.disk)]}
  {
    if Possible(p, item, ctx, mishap) {
      CutTraces(p, item, ctx, mishap);
    } else {
      Flushes.SentOnce(p, item, ctx);
    }
  }

  lemma MarkersElsewhere(p: Progress, item: Item, ctx: Context, mishap: Mishap, lane: string)
    requires lane != item.lane
    ensures Get(TurnWith(p, item, ctx, mishap).disk.markers, lane) == Get(p.disk.markers, lane)
  {
    if Possible(p, item, ctx, mishap) {
      CutTraces(p, item, ctx, mishap);
      SameElsewhere(p.disk.markers, TurnWith(p, item, ctx, mishap).disk.markers, item.lane, lane);
    } else {
      Flushes.MarkersElsewhere(p, item, ctx, lane);
    }
  }

  lemma NotesElsewhere(p: Progress, item: Item, ctx: Context, mishap: Mishap, f: File)
    requires f != item.file || (f in p.disk.files && Corrupt(p.disk, item))
    ensures Get(TurnWith(p, item, ctx, mishap).disk.notes, f) == Get(p.disk.notes, f)
  {
    if Possible(p, item, ctx, mishap) {
      CutTraces(p, item, ctx, mishap);
      SameElsewhere(p.disk.notes, TurnWith(p, item, ctx, mishap).disk.notes, item.file, f);
    } else {
      Flushes.NotesElsewhere(p, item, ctx, f);
    }
  }

  lemma FilesElsewhere(p: Progress, item: Item, ctx: Context, mishap: Mishap, f: File)
    requires f != item.file || f !in p.disk.files || Corrupt(p.disk, item)
    ensures Get(TurnWith(p, item, ctx, mishap).disk.files, f) == Get(p.disk.files, f)
  {
    if Possible(p, item, ctx, mishap) {
      CutTraces(p, item, ctx, mishap);
    } else {
      Flushes.FilesElsewhere(p, item, ctx, f);
    }
  }

  lemma FilesShrink(p: Progress, item: Item, ctx: Context, mishap: Mishap)
    ensures TurnWith(p, item, ctx, mishap).disk.files in {p.disk.files, p.disk.files - {item.file}}
  {
    if Possible(p, item, ctx, mishap) {
      CutTraces(p, item, ctx, mishap);
    } else {
      Flushes.ItemEffect(p, item, ctx);
    }
  }
}
