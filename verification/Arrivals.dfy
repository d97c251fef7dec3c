/**
  Flushes among others: files that other processes queue while a flush is under way, and operations that
  fail or workers that die in it. The flush goes on with the listing it made.
 */
module Arrivals {
  import opened Outbox
  import opened Receipts
  import Retry
  import M = Mishaps

  type Batch = map<File, Content>

  function Add(disk: Disk, batch: Batch): Disk {
    disk.(files := disk.files + batch)
  }

  /** What arrives before a turn, and what befalls it. */
  datatype Around = Around(batch: Batch, mishap: M.Mishap)

  function First(around: seq<Around>): Around {
    if around == [] then Around(map[], M.Safe) else around[0]
  }

  function Later(around: seq<Around>): seq<Around> {
    if around == [] then [] else around[1..]
  }

  /** One turn, with what arrived before it. */
  function Turned(q: Progress, item: Item, ctx: Context, around: Around): Progress {
    M.TurnWith(q.(disk := Add(q.disk, around.batch)), item, ctx, around.mishap)
  }

  /** The loop of a flush amid arrivals and mishaps. */
  function FlushAmid(p: Progress, items: seq<Item>, ctx: Context, around: seq<Around>): Progress
    decreases |items|
  {
    if items == [] || p.stopped then p
    else FlushAmid(Turned(p, items[0], ctx, First(around)), items[1..], ctx, Later(around))
  }

  /** The same loop if nothing arrived. */
  function FlushAlone(p: Progress, items: seq<Item>, ctx: Context, around: seq<Around>): Progress
    decreases |items|
  {
    if items == [] || p.stopped then p
    else FlushAlone(M.TurnWith(p, items[0], ctx, First(around).mishap), items[1..], ctx, Later(around))
  }

  function FlushDuring(disk: Disk, items: seq<Item>, ctx: Context, around: seq<Around>): Progress {
    if PausesAll(disk.auth, ctx.credential) then Flush(disk, items, ctx)
    else FlushAmid(Start(disk, items), items, ctx, around)
  }

  /** With nothing around it, it is the flush itself. */
  lemma {:induction false} AloneIsFlush(p: Progress, items: seq<Item>, ctx: Context)
    ensures FlushAlone(p, items, ctx, []) == FlushAll(p, items, ctx) == FlushAmid(p, items, ctx, [])
    decreases |items|
  {
    if items != [] && !p.stopped {
      assert Add(p.disk, map[]) == p.disk;
      AloneIsFlush(FlushItem(p, items[0], ctx), items[1..], ctx);
    }
  }

  /** All that arrives before the flush ends. */
  function Taken(p: Progress, items: seq<Item>, ctx: Context, around: seq<Around>): Batch
    decreases |items|
  {
    if items == [] || p.stopped then map[]
    else First(around).batch + Taken(Turned(p, items[0], ctx, First(around)), items[1..], ctx, Later(around))
  }

  /** The files are new, to the disk with its sidecars and markers, and to what the flush still looks at. */
  predicate New(disk: Disk, batch: Batch, items: seq<Item>, predecessors: seq<Item>) {
    && (forall g :: g in batch ==> g !in disk.files && g !in disk.notes)
    && (forall l :: l in disk.markers && disk.markers[l].Marker? ==> disk.markers[l].owner !in batch)
    && (forall item :: item in items ==> item.file !in batch)
    && (forall other :: other in predecessors ==> other.file !in batch)
  }

  /** What arrives during a flush is new when it arrives. */
  predicate AllNew(p: Progress, items: seq<Item>, ctx: Context, around: seq<Around>)
    decreases |items|
  {
    items == [] || p.stopped ||
    (&& New(p.disk, First(around).batch, items, ctx.predecessors)
     && AllNew(Turned(p, items[0], ctx, First(around)), items[1..], ctx, Later(around)))
  }

  // ---------------------------------------------------------------- arrivals do not change the flush

  /** A send amid arrivals: the same item, and a disk that holds more, but no predecessor. */
  predicate Shadows(send: (Item, Disk), amid: (Item, Disk), predecessors: seq<Item>) {
    var (item, disk) := send;
    && amid.0 == item && amid.1 == disk.(files := amid.1.files)
    && (forall f :: f in disk.files ==> f in amid.1.files && amid.1.files[f] == disk.files[f])
    && (forall other :: other in predecessors && other.file in amid.1.files ==> other.file in disk.files)
  }

  /** A flush and the same flush amid arrivals, of which these have come so far. */
  ghost predicate InStep(p: Progress, q: Progress, extra: Batch, ctx: Context) {
    && Alike(p, q, extra) && extra.Keys !! p.disk.files.Keys
    && (forall other :: other in ctx.predecessors ==> other.file !in extra)
    && |q.sends| == |p.sends|
    && (forall i :: 0 <= i < |p.sends| ==> Shadows(p.sends[i], q.sends[i], ctx.predecessors))
  }

  /** The same flush, but for the arrivals and the sends it logs. */
  predicate Alike(p: Progress, q: Progress, extra: Batch) {
    q == p.(disk := Add(p.disk, extra), sends := q.sends)
  }

  /** The checks before a send do not see them. */
  lemma ChecksAmid(disk: Disk, extra: Batch, item: Item, ctx: Context)
    requires item.file !in extra && forall other :: other in ctx.predecessors ==> other.file !in extra
    ensures var amid := Add(disk, extra);
      && (item.file in amid.files <==> item.file in disk.files) && (Corrupt(amid, item) <==> Corrupt(disk, item))
      && (Preceded(amid, item, ctx.predecessors) <==> Preceded(disk, item, ctx.predecessors))
      && (OwnedByOther(amid, item) <==> OwnedByOther(disk, item))
      && SidecarOf(amid, item.file) == SidecarOf(disk, item.file)
      && LocalFailure(amid, item, SidecarOf(disk, item.file)) == LocalFailure(disk, item, SidecarOf(disk, item.file))
  {
  }

  /** An item that is not among them does not see them. */
  lemma ItemAmid(p: Progress, q: Progress, extra: Batch, item: Item, ctx: Context)
    requires Alike(p, q, extra) && extra.Keys !! p.disk.files.Keys && item.file !in extra
    requires forall other :: other in ctx.predecessors ==> other.file !in extra
    ensures Alike(FlushItem(p, item, ctx), FlushItem(q, item, ctx), extra)
    ensures FlushItem(p, item, ctx).sends == p.sends <==> FlushItem(q, item, ctx).sends == q.sends
  {
    ChecksAmid(p.disk, extra, item, ctx);
    var sidecar := SidecarOf(p.disk, item.file);
    if p.attempts >= MAX_ATTEMPTS || TurnOf(ctx, item.file).late || item.lane in ctx.busy {
    } else if item.file !in p.disk.files {
    } else if Corrupt(p.disk, item) || Preceded(p.disk, item, ctx.predecessors) || OwnedByOther(p.disk, item) {
    } else if Held(sidecar, ctx.credential, TurnOf(ctx, item.file).now) {
    } else if LocalFailure(p.disk, item, sidecar).Some? {
      FailureAmid(p, q, p.disk, extra, item, LocalFailure(p.disk, item, sidecar).value, ctx);
    } else {
      SendAmid(p, q, extra, item, ctx);
    }
  }

  lemma FailureAmid(p: Progress, q: Progress, disk: Disk, extra: Batch, item: Item, failure: Retry.Failure,
                    ctx: Context)
    requires Alike(p, q, extra) && SidecarOf(p.disk, item.file).attempts >= 0
    ensures var p', q' :=
      AfterFailure(p, item, disk, failure, ctx), AfterFailure(q, item, Add(disk, extra), failure, ctx);
      Alike(p', q', extra) && p'.sends == p.sends && q'.sends == q.sends
  {
  }

  lemma SendAmid(p: Progress, q: Progress, extra: Batch, item: Item, ctx: Context)
    requires Alike(p, q, extra) && item.file in p.disk.files && item.file !in extra
    requires SidecarOf(p.disk, item.file).attempts >= 0
    ensures Alike(Send(p, item, ctx), Send(q, item, ctx), extra)
    ensures Send(p, item, ctx).sends != p.sends && Send(q, item, ctx).sends != q.sends
  {
    var p' := p.(attempts := p.attempts + 1, sends := p.sends + [(item, p.disk)]);
    var q' := q.(attempts := q.attempts + 1, sends := q.sends + [(item, q.disk)]);
    var ahead := WriteAhead(p.disk, item);
    assert WriteAhead(q.disk, item) == Add(ahead, extra);
    var failure := Verdict(p.disk.files[item.file], TurnOf(ctx, item.file).response);
    if failure.Some? {
      FailureAmid(p', q', ahead, extra, item, failure.value, ctx);
    } else {
      RemoveAmid(ahead, extra, item);
    }
  }

  lemma RemoveAmid(disk: Disk, extra: Batch, item: Item)
    requires item.file !in extra
    ensures Remove(Add(disk, extra), item) == Add(Remove(disk, item), extra)
  {
    assert (disk.files + extra) - {item.file} == (disk.files - {item.file}) + extra;
  }

  lemma DiskAmid(disk: Disk, extra: Batch, item: Item, point: M.Point)
    requires item.file !in extra
    ensures M.DiskAt(Add(disk, extra), item, point) == Add(M.DiskAt(disk, item, point), extra)
  {
    assert (disk.files + extra) - {item.file} == (disk.files - {item.file}) + extra;
  }

  lemma PossibleAmid(p: Progress, q: Progress, extra: Batch, item: Item, ctx: Context, mishap: M.Mishap)
    requires Alike(p, q, extra) && item.file !in extra
    requires forall other :: other in ctx.predecessors ==> other.file !in extra
    ensures M.Possible(p, item, ctx, mishap) <==> M.Possible(q, item, ctx, mishap)
    ensures M.Possible(p, item, ctx, mishap) ==> M.Trouble(p, item, ctx, mishap) == M.Trouble(q, item, ctx, mishap)
  {
    ChecksAmid(p.disk, extra, item, ctx);
  }

  lemma MishapAmid(p: Progress, q: Progress, extra: Batch, item: Item, ctx: Context, mishap: M.Mishap)
    requires Alike(p, q, extra) && item.file !in extra && M.Possible(p, item, ctx, mishap)
    requires forall other :: other in ctx.predecessors ==> other.file !in extra
    ensures Alike(M.TurnWith(p, item, ctx, mishap), M.TurnWith(q, item, ctx, mishap), extra)
  {
    PossibleAmid(p, q, extra, item, ctx, mishap);
    DiskAmid(p.disk, extra, item, mishap.point);
    if mishap.Fails? {
      FailureAmid(M.Logged(p, item, mishap.point), M.Logged(q, item, mishap.point),
                  M.DiskAt(p.disk, item, mishap.point), extra, item, M.BROKEN, ctx);
    }
  }

  lemma SendsAmid(p: Progress, q: Progress, extra: Batch, item: Item, ctx: Context, mishap: M.Mishap)
    requires Alike(p, q, extra) && extra.Keys !! p.disk.files.Keys && item.file !in extra
    requires forall other :: other in ctx.predecessors ==> other.file !in extra
    ensures var p', q' := M.TurnWith(p, item, ctx, mishap), M.TurnWith(q, item, ctx, mishap);
      && Alike(p', q', extra) && (p'.sends == p.sends <==> q'.sends == q.sends)
  {
    PossibleAmid(p, q, extra, item, ctx, mishap);
    if M.Possible(p, item, ctx, mishap) {
      MishapAmid(p, q, extra, item, ctx, mishap);
    } else {
      ItemAmid(p, q, extra, item, ctx);
    }
  }

  lemma MoreArrive(p: Progress, q: Progress, extra: Batch, batch: Batch, items: seq<Item>, ctx: Context)
    requires InStep(p, q, extra, ctx) && New(q.disk, batch, items, ctx.predecessors)
    ensures InStep(p, q.(disk := Add(q.disk, batch)), extra + batch, ctx)
  {
    assert (p.disk.files + extra) + batch == p.disk.files + (extra + batch);
  }

  lemma ItemInStep(p: Progress, q: Progress, extra: Batch, item: Item, ctx: Context, mishap: M.Mishap)
    requires InStep(p, q, extra, ctx) && item.file !in extra
    ensures InStep(M.TurnWith(p, item, ctx, mishap), M.TurnWith(q, item, ctx, mishap), extra, ctx)
  {
    SendsAmid(p, q, extra, item, ctx, mishap);
    M.FilesShrink(p, item, ctx, mishap);
    M.SentAtMost(p, item, ctx, mishap);
    M.SentAtMost(q, item, ctx, mishap);
    assert Shadows((item, p.disk), (item, q.disk), ctx.predecessors);
  }

  lemma TurnInStep(p: Progress, q: Progress, extra: Batch, items: seq<Item>, ctx: Context, around: Around)
    requires items != [] && InStep(p, q, extra, ctx) && (forall item :: item in items ==> item.file !in extra)
    requires New(q.disk, around.batch, items, ctx.predecessors)
    ensures InStep(M.TurnWith(p, items[0], ctx, around.mishap), Turned(q, items[0], ctx, around),
                   extra + around.batch, ctx)
    ensures forall item :: item in items[1..] ==> item.file !in extra + around.batch
  {
    MoreArrive(p, q, extra, around.batch, items, ctx);
    assert items[0] in items && forall item :: item in items[1..] ==> item in items;
    ItemInStep(p, q.(disk := Add(q.disk, around.batch)), extra + around.batch, items[0], ctx, around.mishap);
  }

  /**
    A flush amid new files does to what it listed exactly what it does without them, sends the same items in
    the same order, and leaves the new files as they came, wherever they sort.
   */
  lemma {:induction false} FlushInStep(p: Progress, q: Progress, extra: Batch, items: seq<Item>, ctx: Context,
                                       around: seq<Around>)
    requires InStep(p, q, extra, ctx) && AllNew(q, items, ctx, around)
    requires forall item :: item in items ==> item.file !in extra
    ensures InStep(FlushAlone(p, items, ctx, around), FlushAmid(q, items, ctx, around),
                   extra + Taken(q, items, ctx, around), ctx)
    decreases |items|
  {
    if items == [] || p.stopped {
      assert extra + Taken(q, items, ctx, around) == extra;
    } else {
      var first, later := First(around), Later(around);
      var p', q' := M.TurnWith(p, items[0], ctx, first.mishap), Turned(q, items[0], ctx, first);
      TurnInStep(p, q, extra, items, ctx, first);
      FlushInStep(p', q', extra + first.batch, items[1..], ctx, later);
      Unfolded(q, items, ctx, around);
      assert FlushAlone(p, items, ctx, around) == FlushAlone(p', items[1..], ctx, later);
      assert extra + Taken(q, items, ctx, around) == (extra + first.batch) + Taken(q', items[1..], ctx, later) by {
        Associative(extra, first.batch, Taken(q', items[1..], ctx, later));
      }
    }
  }

  lemma Associative(a: Batch, b: Batch, c: Batch)
    ensures a + (b + c) == (a + b) + c
  {
  }

  lemma Unfolded(q: Progress, items: seq<Item>, ctx: Context, around: seq<Around>)
    requires items != [] && !q.stopped
    ensures var q' := Turned(q, items[0], ctx, First(around));
      && FlushAmid(q, items, ctx, around) == FlushAmid(q', items[1..], ctx, Later(around))
      && Taken(q, items, ctx, around) == First(around).batch + Taken(q', items[1..], ctx, Later(around))
  {
  }
}
