/**
  Draining a queue: when nothing holds an envelope back but an earlier failure that is due again, flushes
  empty the queue, a hundred envelopes at a time and oldest first. It rests on the lane markers: one that
  names anything but the present head of its lane would close the lane.
 */
module Drain {
  import opened Wrappers
  import opened Retry
  import opened Receipts
  import opened Outbox
  import opened LaneOrder
  import Flushes
  import M = Mishaps
  import A = Arrivals

  /** Every queued envelope can be read, its sidecar lets it go now, and its send will be confirmed. */
  predicate Willing(disk: Disk, kind: Kind, ctx: Context) {
    && ctx.predecessors == [] && ctx.busy == {} && !PausesAll(disk.auth, ctx.credential)
    && (forall f :: f in disk.files ==>
          && f.kind == kind && disk.files[f].Envelope? && disk.files[f].time.Text?
          && Verdict(disk.files[f], TurnOf(ctx, f).response).None? && !TurnOf(ctx, f).late)
    && (forall f :: f in disk.notes && f in disk.files ==>
          && Usable(disk.notes[f])
          && !Held(disk.notes[f].sidecar, ctx.credential, TurnOf(ctx, f).now))
  }

  /** A sidecar is of the content it lies beside. */
  predicate HashesOk(disk: Disk) {
    forall f :: f in disk.notes && f in disk.files && disk.notes[f].Note? ==>
      disk.notes[f].sidecar.hash in {None, Some(disk.files[f])}
  }

  /** No lane waits for a file that is gone. */
  ghost predicate Unclosed(disk: Disk) {
    forall l :: l in disk.markers && disk.markers[l].Marker? ==> disk.markers[l].owner in disk.files
  }

  /** Part of another disk: fewer envelopes, with the sidecars they had. */
  predicate PartOf(part: Disk, whole: Disk) {
    && (forall f :: f in part.files ==> f in whole.files && part.files[f] == whole.files[f])
    && (forall f :: f in part.notes ==> f in whole.notes && part.notes[f] == whole.notes[f])
    && part.auth in {whole.auth, NoAuth}
  }

  lemma WillingPart(part: Disk, whole: Disk, kind: Kind, ctx: Context)
    requires PartOf(part, whole) && Willing(whole, kind, ctx) && HashesOk(whole)
    ensures Willing(part, kind, ctx) && HashesOk(part)
  {
  }

  /** No marker stands in the way of the first item. */
  lemma FirstIsFree(disk: Disk, items: seq<Item>, kind: Kind, ctx: Context)
    requires items != [] && Ordered(disk) && Lists(items, disk.files, kind) && Willing(disk, kind, ctx)
    requires Unclosed(disk)
    ensures !Corrupt(disk, items[0]) && !OwnedByOther(disk, items[0])
  {
    var item := items[0];
    if item.lane in disk.markers {
      var owner := disk.markers[item.lane].owner;
      assert MarkerOk(disk, item.lane, disk.markers[item.lane]);
      assert Entry(disk, owner) in items;
      assert !Stuck(disk, owner) && Neighbours(disk, item.file, owner);
      assert !Before(item, Entry(disk, owner));
    }
  }

  /** So it is sent and removed. */
  lemma FirstGoes(p: Progress, items: seq<Item>, kind: Kind, ctx: Context)
    requires items != [] && Ordered(p.disk) && Lists(items, p.disk.files, kind) && Willing(p.disk, kind, ctx)
    requires HashesOk(p.disk) && Unclosed(p.disk)
    requires p.attempts < MAX_ATTEMPTS
    ensures FlushItem(p, items[0], ctx) ==
      p.(disk := Remove(WriteAhead(p.disk, items[0]), items[0]), result := p.result.(flushed := p.result.flushed + 1),
         attempts := p.attempts + 1, sends := p.sends + [(items[0], p.disk)])
  {
    FirstIsFree(p.disk, items, kind, ctx);
    FirstIsWilling(p.disk, items, kind, ctx);
    GoesToSend(p, items[0], ctx);
    SendDelivers(p, items[0], ctx);
  }

  lemma FirstIsWilling(disk: Disk, items: seq<Item>, kind: Kind, ctx: Context)
    requires items != [] && Lists(items, disk.files, kind) && Willing(disk, kind, ctx)
    requires HashesOk(disk) && Unclosed(disk)
    ensures var item, sidecar := items[0], SidecarOf(disk, items[0].file);
      && item.file in disk.files && item.hash == Some(disk.files[item.file]) && !item.parseError
      && !TurnOf(ctx, item.file).late
      && sidecar.hash in {None, item.hash} && !Held(sidecar, ctx.credential, TurnOf(ctx, item.file).now)
      && Verdict(disk.files[item.file], TurnOf(ctx, item.file).response).None?
  {
  }

  lemma SendDelivers(p: Progress, item: Item, ctx: Context)
    requires item.file in p.disk.files && SidecarOf(p.disk, item.file).attempts >= 0
    requires Verdict(p.disk.files[item.file], TurnOf(ctx, item.file).response).None?
    ensures Send(p, item, ctx) ==
      p.(disk := Remove(WriteAhead(p.disk, item), item), result := p.result.(flushed := p.result.flushed + 1),
         attempts := p.attempts + 1, sends := p.sends + [(item, p.disk)])
  {
  }

  /** An item that nothing keeps from its send. */
  lemma GoesToSend(p: Progress, item: Item, ctx: Context)
    requires p.attempts < MAX_ATTEMPTS && !TurnOf(ctx, item.file).late && ctx.busy == {} && ctx.predecessors == []
    requires item.file in p.disk.files && !Corrupt(p.disk, item) && !OwnedByOther(p.disk, item)
    requires item.hash == Some(p.disk.files[item.file]) && !item.parseError
    requires var sidecar := SidecarOf(p.disk, item.file);
      sidecar.hash in {None, item.hash} && !Held(sidecar, ctx.credential, TurnOf(ctx, item.file).now)
    ensures FlushItem(p, item, ctx) == Send(p, item, ctx)
  {
  }

  lemma FirstGone(disk: Disk, items: seq<Item>, kind: Kind, ctx: Context)
    requires items != [] && Ordered(disk) && Lists(items, disk.files, kind) && Willing(disk, kind, ctx)
    requires HashesOk(disk) && Unclosed(disk)
    ensures var after := Remove(WriteAhead(disk, items[0]), items[0]);
      PartOf(after, disk) && Ordered(after) && Unclosed(after) && Lists(items[1..], after.files, kind)
  {
    FirstIsFree(disk, items, kind, ctx);
    FirstRemoved(disk, items, kind);
    StillUnclosed(disk, items[0]);
    ListingTail(items, disk.files, kind);
  }

  lemma FirstRemoved(disk: Disk, items: seq<Item>, kind: Kind)
    requires items != [] && Ordered(disk) && Lists(items, disk.files, kind)
    requires !Corrupt(disk, items[0]) && !OwnedByOther(disk, items[0])
    ensures Ordered(Remove(WriteAhead(disk, items[0]), items[0]))
  {
    ListingIsSound(disk, items, kind, []);
    ClearedFacts(disk, items, kind, []);
    GoneOrder(disk, Remove(WriteAhead(disk, items[0]), items[0]), items[0]);
  }

  lemma StillUnclosed(disk: Disk, item: Item)
    requires Ordered(disk) && Unclosed(disk) && item.file in disk.files && item == Entry(disk, item.file)
    ensures Unclosed(Remove(WriteAhead(disk, item), item))
  {
    forall l | l in disk.markers && l != item.lane
      ensures disk.markers[l].Marker? && disk.markers[l].owner != item.file
    {
      assert MarkerOk(disk, l, disk.markers[l]);
    }
  }

  lemma ListingTail(items: seq<Item>, files: map<File, Content>, kind: Kind)
    requires items != [] && Lists(items, files, kind)
    ensures Lists(items[1..], files - {items[0].file}, kind)
  {
    var rest, fewer := items[1..], files - {items[0].file};
    HeadNotInTail(items);
    forall i | 0 <= i < |rest|
      ensures rest[i].file in fewer && rest[i].file.kind == kind && rest[i] == ItemOf(rest[i].file, fewer[rest[i].file])
    {
      assert rest[i] == items[i + 1] && rest[i] in rest;
    }
    forall f | f in fewer && f.kind == kind
      ensures ItemOf(f, fewer[f]) in rest
    {
      assert ItemOf(f, files[f]) in items && items == [items[0]] + rest;
    }
  }

  /** What is left of a disk when the first items of its listing have gone, in order. */
  ghost predicate Drained(p: Progress, p': Progress, items: seq<Item>, k: nat, kind: Kind)
    requires k <= |items|
  {
    && PartOf(p'.disk, p.disk) && Ordered(p'.disk) && Unclosed(p'.disk) && Lists(items[k..], p'.disk.files, kind)
    && p'.result == p.result.(flushed := p.result.flushed + k)
    && |p'.sends| == |p.sends| + k && p'.sends[..|p.sends|] == p.sends
    && forall i :: 0 <= i < k ==> p'.sends[|p.sends| + i].0 == items[i]
  }

  lemma {:induction false} AllGo(p: Progress, items: seq<Item>, kind: Kind, ctx: Context)
    requires Ordered(p.disk) && Lists(items, p.disk.files, kind) && Willing(p.disk, kind, ctx)
    requires HashesOk(p.disk) && Unclosed(p.disk)
    requires p.attempts <= MAX_ATTEMPTS && !p.stopped
    ensures Drained(p, FlushAll(p, items, ctx), items, Min(MAX_ATTEMPTS - p.attempts, |items|), kind)
    decreases |items|
  {
    if items == [] || p.attempts == MAX_ATTEMPTS {
      NoneGoes(p, items, kind, ctx);
    } else {
      var p' := FlushItem(p, items[0], ctx);
      OneGoes(p, p', items, kind, ctx);
      AllGo(p', items[1..], kind, ctx);
      var k := Min(MAX_ATTEMPTS - p.attempts, |items|);
      assert Min(MAX_ATTEMPTS - p'.attempts, |items[1..]|) == k - 1;
      assert FlushAll(p, items, ctx) == FlushAll(p', items[1..], ctx);
      FirstThenRest(p, p', FlushAll(p', items[1..], ctx), items, k, kind);
    }
  }

  lemma NoneGoes(p: Progress, items: seq<Item>, kind: Kind, ctx: Context)
    requires Ordered(p.disk) && Lists(items, p.disk.files, kind) && Willing(p.disk, kind, ctx)
    requires HashesOk(p.disk) && Unclosed(p.disk)
    requires !p.stopped
    requires items == [] || p.attempts == MAX_ATTEMPTS
    ensures Drained(p, FlushAll(p, items, ctx), items, 0, kind)
  {
    assert items[0..] == items;
    if items != [] {
      var p' := FlushItem(p, items[0], ctx);
      assert p' == p.(stopped := true);
      assert FlushAll(p, items, ctx) == FlushAll(p', items[1..], ctx) == p';
    }
  }

  lemma OneGoes(p: Progress, p': Progress, items: seq<Item>, kind: Kind, ctx: Context)
    requires items != [] && Ordered(p.disk) && Lists(items, p.disk.files, kind) && Willing(p.disk, kind, ctx)
    requires HashesOk(p.disk) && Unclosed(p.disk)
    requires p.attempts < MAX_ATTEMPTS && p' == FlushItem(p, items[0], ctx)
    ensures PartOf(p'.disk, p.disk) && Ordered(p'.disk) && Lists(items[1..], p'.disk.files, kind)
    ensures Willing(p'.disk, kind, ctx)
    ensures HashesOk(p'.disk) && Unclosed(p'.disk)
    ensures p'.result == p.result.(flushed := p.result.flushed + 1) && p'.attempts == p.attempts + 1
    ensures p'.sends == p.sends + [(items[0], p.disk)] && p'.stopped == p.stopped
  {
    FirstGoes(p, items, kind, ctx);
    FirstGone(p.disk, items, kind, ctx);
    WillingPart(p'.disk, p.disk, kind, ctx);
  }

  lemma FirstThenRest(p: Progress, p': Progress, p'': Progress, items: seq<Item>, k: nat, kind: Kind)
    requires 0 < k <= |items| && Drained(p', p'', items[1..], k - 1, kind)
    requires PartOf(p'.disk, p.disk) && p'.result == p.result.(flushed := p.result.flushed + 1)
    requires p'.sends == p.sends + [(items[0], p.disk)]
    ensures Drained(p, p'', items, k, kind)
  {
    assert items[1..][k - 1..] == items[k..];
    assert p''.sends[..|p.sends|] == p''.sends[..|p'.sends|][..|p.sends|];
    forall i | 0 <= i < k
      ensures p''.sends[|p.sends| + i].0 == items[i]
    {
      if i == 0 {
        assert p''.sends[..|p'.sends|][|p.sends|] == p'.sends[|p.sends|];
      } else {
        assert p''.sends[|p'.sends| + (i - 1)].0 == items[1..][i - 1];
      }
    }
  }

  // ---------------------------------------------------------------- runs of flushes

  /** Flushes of one queue one after the other, each of the listing it finds. */
  ghost predicate InTurn(disk: Disk, kind: Kind, flushes: seq<(seq<Item>, Context)>)
    decreases |flushes|
  {
    flushes == [] ||
    (Lists(flushes[0].0, disk.files, kind) && InTurn(Flush(disk, flushes[0].0, flushes[0].1).disk, kind, flushes[1..]))
  }

  function FlushEach(disk: Disk, flushes: seq<(seq<Item>, Context)>): Disk
    decreases |flushes|
  {
    if flushes == [] then disk else FlushEach(Flush(disk, flushes[0].0, flushes[0].1).disk, flushes[1..])
  }

  /** A listing has one item for each file. */
  lemma {:induction false} ListingLength(items: seq<Item>, files: map<File, Content>, kind: Kind)
    requires Lists(items, files, kind) && forall f :: f in files ==> f.kind == kind
    ensures |items| == |files|
    decreases |items|
  {
    if items == [] {
      assert files.Keys == {};
    } else {
      ListingTail(items, files, kind);
      ListingLength(items[1..], files - {items[0].file}, kind);
    }
  }

  /** One flush delivers the first hundred of its listing, in order, and nothing else. */
  lemma FlushDrains(disk: Disk, items: seq<Item>, kind: Kind, ctx: Context)
    requires Ordered(disk) && Lists(items, disk.files, kind) && Willing(disk, kind, ctx)
    requires HashesOk(disk) && Unclosed(disk)
    ensures var p, k := Flush(disk, items, ctx), Min(MAX_ATTEMPTS, |items|);
      && p.result == Result(|items|, k, 0, 0)
      && |p.sends| == k && (forall i :: 0 <= i < k ==> p.sends[i].0 == items[i])
      && Lists(items[k..], p.disk.files, kind) && Ordered(p.disk) && Unclosed(p.disk) && PartOf(p.disk, disk)
  {
    AllGo(Start(disk, items), items, kind, ctx);
  }

  lemma FlushLeaves(disk: Disk, items: seq<Item>, kind: Kind, ctx: Context)
    requires Ordered(disk) && Lists(items, disk.files, kind) && Willing(disk, kind, ctx)
    requires HashesOk(disk) && Unclosed(disk)
    ensures |Flush(disk, items, ctx).disk.files| == |disk.files| - Min(|disk.files|, MAX_ATTEMPTS)
  {
    FlushDrains(disk, items, kind, ctx);
    ListingLength(items, disk.files, kind);
    ListingLength(items[Min(MAX_ATTEMPTS, |items|)..], Flush(disk, items, ctx).disk.files, kind);
  }

  /** Every flush of a run finds the disk it starts from willing. */
  ghost predicate AllWilling(disk: Disk, kind: Kind, flushes: seq<(seq<Item>, Context)>) {
    forall i :: 0 <= i < |flushes| ==> Willing(disk, kind, flushes[i].1)
  }

  lemma RestWilling(part: Disk, whole: Disk, kind: Kind, flushes: seq<(seq<Item>, Context)>)
    requires flushes != [] && PartOf(part, whole) && AllWilling(whole, kind, flushes) && HashesOk(whole)
    ensures AllWilling(part, kind, flushes[1..]) && HashesOk(part)
  {
    forall i | 0 <= i < |flushes[1..]|
      ensures Willing(part, kind, flushes[1..][i].1)
    {
      WillingPart(part, whole, kind, flushes[i + 1].1);
    }
  }

  lemma {:induction false} FlushesDrainFrom(disk: Disk, kind: Kind, flushes: seq<(seq<Item>, Context)>)
    requires Ordered(disk) && HashesOk(disk) && Unclosed(disk)
    requires InTurn(disk, kind, flushes) && AllWilling(disk, kind, flushes)
    ensures |FlushEach(disk, flushes).files| == |disk.files| - Min(|disk.files|, MAX_ATTEMPTS * |flushes|)
    decreases |flushes|
  {
    if flushes != [] {
      var (items, ctx) := flushes[0];
      var after := Flush(disk, items, ctx).disk;
      assert Willing(disk, kind, flushes[0].1);
      FlushDrains(disk, items, kind, ctx);
      FlushLeaves(disk, items, kind, ctx);
      RestWilling(after, disk, kind, flushes);
      FlushesDrainFrom(after, kind, flushes[1..]);
      assert FlushEach(disk, flushes) == FlushEach(after, flushes[1..]);
    }
  }

  // ---------------------------------------------------------------- over whole runs

  /** Sidecars and markers are of queued files, in their lanes and with their contents. */
  ghost predicate Tidy(disk: Disk) {
    && HashesOk(disk) && (forall f :: f in disk.notes ==> f in disk.files)
    && (forall l :: l in disk.markers ==>
          && disk.markers[l].Marker? && disk.markers[l].owner in disk.files
          && LaneOf(disk.files[disk.markers[l].owner]) == l)
  }

  predicate Current(disk: Disk, items: seq<Item>) {
    forall item :: item in items && item.file in disk.files ==> item == Entry(disk, item.file)
  }

  lemma ItemTidies(p: Progress, item: Item, ctx: Context)
    requires Tidy(p.disk) && (item.file in p.disk.files ==> item == Entry(p.disk, item.file))
    ensures Tidy(FlushItem(p, item, ctx).disk)
  {
    if item.file in p.disk.files && !Corrupt(p.disk, item) {
      GapTidies(p, item, PendingPredecessor);
      GapTidies(p, item, LaneGap);
      TriedTidies(p, item, ctx);
    }
  }

  lemma GapTidies(p: Progress, item: Item, code: ErrorCode)
    requires Tidy(p.disk) && item.file in p.disk.files && item == Entry(p.disk, item.file)
    ensures Tidy(Gap(p, item, code).disk)
  {
  }

  lemma TriedTidies(p: Progress, item: Item, ctx: Context)
    requires item.file in p.disk.files && item == Entry(p.disk, item.file) && Tidy(p.disk)
    requires SidecarOf(p.disk, item.file).attempts >= 0
    ensures Tidy(Send(p, item, ctx).disk)
    ensures var failure := LocalFailure(p.disk, item, SidecarOf(p.disk, item.file));
      failure.Some? ==> Tidy(AfterFailure(p, item, p.disk, failure.value, ctx).disk)
  {
    SendTidies(p, item, ctx);
    var failure := LocalFailure(p.disk, item, SidecarOf(p.disk, item.file));
    if failure.Some? {
      RescheduleTidies(p.disk, item, failure.value, SidecarOf(p.disk, item.file), ctx);
    }
  }

  lemma SendTidies(p: Progress, item: Item, ctx: Context)
    requires item.file in p.disk.files && item == Entry(p.disk, item.file) && Tidy(p.disk)
    requires SidecarOf(p.disk, item.file).attempts >= 0
    ensures Tidy(Send(p, item, ctx).disk)
  {
    var ahead := WriteAhead(p.disk, item);
    AheadTidies(p.disk, item);
    var failure := Verdict(p.disk.files[item.file], TurnOf(ctx, item.file).response);
    if failure.None? {
      RemoveTidies(ahead, item);
    } else {
      RescheduleTidies(ahead, item, failure.value, SidecarOf(p.disk, item.file), ctx);
    }
  }

  lemma AheadTidies(disk: Disk, item: Item)
    requires item.file in disk.files && item == Entry(disk, item.file) && Tidy(disk)
    ensures var ahead := WriteAhead(disk, item);
      Tidy(ahead) && item.file in ahead.files && item == Entry(ahead, item.file)
  {
  }

  lemma RemoveTidies(disk: Disk, item: Item)
    requires item.file in disk.files && item == Entry(disk, item.file) && Tidy(disk)
    ensures Tidy(Remove(disk, item))
  {
  }

  lemma RescheduleTidies(disk: Disk, item: Item, failure: Failure, sidecar: Sidecar<Content>, ctx: Context)
    requires item.file in disk.files && item == Entry(disk, item.file) && Tidy(disk) && sidecar.attempts >= 0
    ensures Tidy(Rescheduled(disk, item, failure, sidecar, TurnOf(ctx, item.file), ctx.credential))
  {
  }

  /** Nothing is cut short in these steps. */
  predicate Whole(steps: seq<Step>) {
    forall s, a :: s in steps && s.FlushQueue? && a in s.around ==> a.mishap.Safe?
  }

  lemma {:induction false} FlushTidies(p: Progress, items: seq<Item>, ctx: Context, around: seq<A.Around>)
    requires Tidy(p.disk) && Current(p.disk, items) && A.AllNew(p, items, ctx, around)
    requires forall a :: a in around ==> a.mishap.Safe?
    ensures Tidy(A.FlushAmid(p, items, ctx, around).disk)
    decreases |items|
  {
    if items != [] && !p.stopped {
      var q := p.(disk := A.Add(p.disk, A.First(around).batch));
      assert items[0] in items && forall item :: item in items[1..] ==> item in items;
      ItemTidies(q, items[0], ctx);
      Flushes.ItemEffect(q, items[0], ctx);
      FlushTidies(A.Turned(p, items[0], ctx, A.First(around)), items[1..], ctx, A.Later(around));
    }
  }

  lemma {:induction false} RunTidies(disk: Disk, steps: seq<Step>)
    requires Tidy(disk) && AllEnabled(disk, steps) && Whole(steps)
    ensures Tidy(Run(disk, steps))
    decreases |steps|
  {
    if steps != [] {
      assert steps[0] in steps && forall s :: s in steps[1..] ==> s in steps;
      if steps[0].FlushQueue? && !PausesAll(disk.auth, steps[0].ctx.credential) {
        FlushTidies(Start(disk, steps[0].items), steps[0].items, steps[0].ctx, steps[0].around);
      }
      RunTidies(Next(disk, steps[0]), steps[1..]);
    }
  }

  /**
    From any state reached by whole flushes, and from any other in which no lane is closed and the sidecars
    fit their envelopes: with the other queue empty and every envelope willing under each coming flush, m
    flushes leave exactly what exceeds a hundred times m: ceil(n / 100) flushes, and no fewer, empty a queue
    of n envelopes.
   */
  lemma FlushesDrain(steps: seq<Step>, kind: Kind, flushes: seq<(seq<Item>, Context)>)
    requires AllEnabled(EMPTY, steps)
    requires Whole(steps) || (Unclosed(Run(EMPTY, steps)) && HashesOk(Run(EMPTY, steps)))
    requires InTurn(Run(EMPTY, steps), kind, flushes) && AllWilling(Run(EMPTY, steps), kind, flushes)
    ensures var disk := Run(EMPTY, steps);
      |FlushEach(disk, flushes).files| == |disk.files| - Min(|disk.files|, MAX_ATTEMPTS * |flushes|)
  {
    RunKeeps(EMPTY, steps);
    if Whole(steps) {
      RunTidies(EMPTY, steps);
    }
    FlushesDrainFrom(Run(EMPTY, steps), kind, flushes);
  }
}
