/** When a flush sends an envelope past an earlier one of its lane: exactly when, for any disk. */
module Overtaking {
  import opened Wrappers
  import opened Retry
  import opened Receipts
  import opened Outbox
  import opened LaneOrder
  import Flushes
  import A = Arrivals

  /** The checks of its turn let the item go. */
  predicate Free(disk: Disk, item: Item, ctx: Context) {
    var sidecar := SidecarOf(disk, item.file);
    && item.file in disk.files && !Corrupt(disk, item) && !Preceded(disk, item, ctx.predecessors)
    && !OwnedByOther(disk, item)
    && !Held(sidecar, ctx.credential, TurnOf(ctx, item.file).now) && LocalFailure(disk, item, sidecar).None?
  }

  /** The flush comes to this item, in time and with its lane to itself. */
  predicate Reached(p: Progress, item: Item, ctx: Context) {
    !p.stopped && p.attempts < MAX_ATTEMPTS && !TurnOf(ctx, item.file).late && item.lane !in ctx.busy
  }

  lemma TurnSendsIff(p: Progress, item: Item, ctx: Context)
    requires !p.stopped
    ensures FlushItem(p, item, ctx).sends ==
      if Reached(p, item, ctx) && Free(p.disk, item, ctx) then p.sends + [(item, p.disk)] else p.sends
  {
  }

  // ---------------------------------------------------------------- what the turns of others leave

  function Get<K, V>(m: map<K, V>, k: K): Option<V> {
    if k in m then Some(m[k]) else None
  }

  /** All that decides the turn of a file: its lane's marker, its sidecar, its content, and its predecessors. */
  datatype View = View(marker: Option<Marker>, note: Option<Note>, content: Option<Content>, ahead: set<Item>)

  function ViewOf(disk: Disk, lane: string, f: File, predecessors: seq<Item>): View {
    View(Get(disk.markers, lane), Get(disk.notes, f), Get(disk.files, f),
         set other | other in predecessors && other.file in disk.files)
  }

  lemma SameViewSameTurn(disk: Disk, disk': Disk, item: Item, ctx: Context)
    requires ViewOf(disk, item.lane, item.file, ctx.predecessors)
      == ViewOf(disk', item.lane, item.file, ctx.predecessors)
    ensures Free(disk, item, ctx) == Free(disk', item, ctx) && Corrupt(disk, item) == Corrupt(disk', item)
    ensures SidecarOf(disk, item.file) == SidecarOf(disk', item.file)
    ensures Preceded(disk, item, ctx.predecessors) == Preceded(disk', item, ctx.predecessors)
    ensures OwnedByOther(disk, item) == OwnedByOther(disk', item)
  {
    assert forall other :: other in ctx.predecessors ==>
      (other.file in disk.files <==> other in ViewOf(disk, item.lane, item.file, ctx.predecessors).ahead);
    assert forall other :: other in ctx.predecessors ==>
      (other.file in disk'.files <==> other in ViewOf(disk', item.lane, item.file, ctx.predecessors).ahead);
    assert Get(disk.notes, item.file) == Get(disk'.notes, item.file);
    assert Get(disk.markers, item.lane) == Get(disk'.markers, item.lane);
    assert Get(disk.files, item.file) == Get(disk'.files, item.file);
  }

  /** The item is of another lane, or its lane is marked with another file; it is not one of the predecessors. */
  predicate Aside(disk: Disk, item: Item, lane: string, f: File, predecessors: seq<Item>) {
    && item.file != f && (forall other :: other in predecessors ==> other.file != item.file)
    && (item.file in disk.files ==> item == Entry(disk, item.file))
    && (item.lane == lane ==> !Stuck(disk, item.file) && lane in disk.markers && disk.markers[lane].Marker?
                              && disk.markers[lane].owner != item.file)
  }

  /** The files of the lane stay, and no send is of the lane. */
  ghost predicate LaneStays(p: Progress, p': Progress, lane: string) {
    && (forall g :: g in p.disk.files && LaneOf(p.disk.files[g]) == lane ==>
          g in p'.disk.files && p'.disk.files[g] == p.disk.files[g])
    && p.sends <= p'.sends
    && (forall i :: |p.sends| <= i < |p'.sends| ==> p'.sends[i].0.lane != lane)
  }

  lemma AsideLeaves(p: Progress, item: Item, ctx: Context, lane: string, f: File)
    requires Aside(p.disk, item, lane, f, ctx.predecessors)
    ensures var p' := FlushItem(p, item, ctx);
      ViewOf(p'.disk, lane, f, ctx.predecessors) == ViewOf(p.disk, lane, f, ctx.predecessors) && LaneStays(p, p', lane)
  {
    var p' := FlushItem(p, item, ctx);
    Flushes.NotesElsewhere(p, item, ctx, f);
    Flushes.FilesElsewhere(p, item, ctx, f);
    Flushes.SentOnce(p, item, ctx);
    forall other | other in ctx.predecessors
      ensures other.file in p'.disk.files <==> other.file in p.disk.files
    {
      Flushes.FilesElsewhere(p, item, ctx, other.file);
    }
    if item.lane == lane {
      GapOnly(p, item, ctx);
    } else {
      Flushes.MarkersElsewhere(p, item, ctx, lane);
      forall g | g in p.disk.files && LaneOf(p.disk.files[g]) == lane
        ensures g in p'.disk.files && p'.disk.files[g] == p.disk.files[g]
      {
        Flushes.FilesElsewhere(p, item, ctx, g);
      }
    }
  }

  /** In a lane marked with another file, a turn leaves a gap at most. */
  lemma GapOnly(p: Progress, item: Item, ctx: Context)
    requires !Stuck(p.disk, item.file) && item.lane in p.disk.markers && p.disk.markers[item.lane].Marker?
    requires p.disk.markers[item.lane].owner != item.file
    ensures var p' := FlushItem(p, item, ctx);
      && p'.disk == p.disk.(notes := p'.disk.notes) && p'.sends == p.sends
      && (forall g :: Get(p'.disk.notes, g) == Get(p.disk.notes, g) || (g == item.file && Usable(p'.disk.notes[g])))
  {
    if item.file in p.disk.files && !Corrupt(p.disk, item) {
      assert OwnedByOther(p.disk, item);
    }
  }

  ghost predicate AllAside(disk: Disk, items: seq<Item>, lane: string, f: File, predecessors: seq<Item>) {
    forall item :: item in items ==> Aside(disk, item, lane, f, predecessors)
  }

  lemma AsideStays(p: Progress, item: Item, other: Item, ctx: Context, lane: string, f: File)
    requires Aside(p.disk, item, lane, f, ctx.predecessors) && Aside(p.disk, other, lane, f, ctx.predecessors)
    ensures Aside(FlushItem(p, item, ctx).disk, other, lane, f, ctx.predecessors)
  {
    var p' := FlushItem(p, item, ctx);
    AsideLeaves(p, item, ctx, lane, f);
    assert Get(p'.disk.markers, lane) == ViewOf(p'.disk, lane, f, ctx.predecessors).marker == Get(p.disk.markers, lane);
    Flushes.ItemEffect(p, item, ctx);
    if other.lane == lane && other.file in p.disk.files {
      if item.file == other.file {
        GapOnly(p, item, ctx);
      } else {
        Flushes.NotesElsewhere(p, item, ctx, other.file);
      }
    }
  }

  lemma StaysJoin(p: Progress, p': Progress, p'': Progress, lane: string)
    requires LaneStays(p, p', lane) && LaneStays(p', p'', lane)
    ensures LaneStays(p, p'', lane)
  {
    assert forall i :: 0 <= i < |p'.sends| ==> p''.sends[i] == p'.sends[i];
  }

  /** Turns of items aside leave the lane, and the view of the file, as they were. */
  lemma {:induction false} OthersLeave(p: Progress, items: seq<Item>, ctx: Context, lane: string, f: File)
    requires AllAside(p.disk, items, lane, f, ctx.predecessors)
    ensures var p' := FlushAll(p, items, ctx);
      ViewOf(p'.disk, lane, f, ctx.predecessors) == ViewOf(p.disk, lane, f, ctx.predecessors) && LaneStays(p, p', lane)
    decreases |items|
  {
    if items != [] && !p.stopped {
      var p1 := FlushItem(p, items[0], ctx);
      assert items[0] in items && forall item :: item in items[1..] ==> item in items;
      AsideLeaves(p, items[0], ctx, lane, f);
      forall other | other in items[1..]
        ensures Aside(p1.disk, other, lane, f, ctx.predecessors)
      {
        AsideStays(p, items[0], other, ctx, lane, f);
      }
      OthersLeave(p1, items[1..], ctx, lane, f);
      StaysJoin(p, p1, FlushAll(p1, items[1..], ctx), lane);
      assert FlushAll(p, items, ctx) == FlushAll(p1, items[1..], ctx);
    }
  }

  lemma {:induction false} FlushSplits(p: Progress, items: seq<Item>, j: nat, ctx: Context)
    requires j <= |items|
    ensures FlushAll(p, items, ctx) == FlushAll(FlushAll(p, items[..j], ctx), items[j..], ctx)
    decreases j
  {
    if j == 0 || p.stopped {
      assert j == 0 ==> items[..j] == [] && items[j..] == items;
    } else {
      var p1 := FlushItem(p, items[0], ctx);
      FlushSplits(p1, items[1..], j - 1, ctx);
      assert items[..j][1..] == items[1..][..j - 1] && items[1..][j - 1..] == items[j..];
      assert FlushAll(p, items[..j], ctx) == FlushAll(p1, items[..j][1..], ctx);
    }
  }

  // ---------------------------------------------------------------- a marked lane

  /** The lane is marked with a queued file: with this one, or with one whose sidecar cannot be used. */
  predicate Barred(disk: Disk, lane: string, f: File) {
    && lane in disk.markers && disk.markers[lane].Marker? && disk.markers[lane].owner in disk.files
    && (disk.markers[lane].owner == f || Stuck(disk, disk.markers[lane].owner))
  }

  /** Once its marked file has had its turn, nothing more of the lane is sent. */
  lemma BarredItem(p: Progress, item: Item, ctx: Context, lane: string, f: File)
    requires Barred(p.disk, lane, f) && item.file != f
    ensures Barred(FlushItem(p, item, ctx).disk, lane, f)
    ensures item.lane == lane ==> FlushItem(p, item, ctx).sends == p.sends
  {
    var owner := p.disk.markers[lane].owner;
    if item.lane != lane {
      Flushes.MarkersElsewhere(p, item, ctx, lane);
      Flushes.FilesElsewhere(p, item, ctx, owner);
      if Stuck(p.disk, owner) {
        Flushes.NotesElsewhere(p, item, ctx, owner);
      }
    } else if item.file in p.disk.files && !Corrupt(p.disk, item) {
      assert OwnedByOther(p.disk, item);
    }
  }

  lemma {:induction false} BarredLane(p: Progress, items: seq<Item>, ctx: Context, lane: string, f: File)
    requires Barred(p.disk, lane, f) && forall item :: item in items ==> item.file != f
    ensures var p' := FlushAll(p, items, ctx);
      p.sends <= p'.sends && forall i :: |p.sends| <= i < |p'.sends| ==> p'.sends[i].0.lane != lane
    decreases |items|
  {
    if items != [] && !p.stopped {
      assert items[0] in items && forall item :: item in items[1..] ==> item in items;
      BarredItem(p, items[0], ctx, lane, f);
      Flushes.SentOnce(p, items[0], ctx);
      BarredLane(FlushItem(p, items[0], ctx), items[1..], ctx, lane, f);
      var p1, p' := FlushItem(p, items[0], ctx), FlushAll(p, items, ctx);
      assert p' == FlushAll(p1, items[1..], ctx);
      assert forall i :: 0 <= i < |p1.sends| ==> p'.sends[i] == p1.sends[i];
    }
  }

  lemma MarkedTurn(p: Progress, item: Item, ctx: Context)
    requires item.file in p.disk.files && item.lane in p.disk.markers && p.disk.markers[item.lane].Marker?
    requires p.disk.markers[item.lane].owner == item.file && FlushItem(p, item, ctx).sends == p.sends
    ensures var p' := FlushItem(p, item, ctx); p'.stopped || Barred(p'.disk, item.lane, item.file)
  {
  }

  /** A send of the lane while a file is on disk that sorts before it. */
  predicate Overtakes(send: (Item, Disk), item: Item) {
    send.0.lane == item.lane && item.file in send.1.files && Before(item, send.0)
  }

  /** The listing of a flush, before its j-th item, none of it of a predecessor's queue. */
  lemma ListedAside(disk: Disk, items: seq<Item>, kind: Kind, j: nat, lane: string, ctx: Context)
    requires Lists(items, disk.files, kind) && Alone(ctx, kind) && j < |items|
    requires forall k :: 0 <= k < j && items[k].lane == lane ==> !Stuck(disk, items[k].file)
    requires lane in disk.markers ==> disk.markers[lane].Marker? && disk.markers[lane].owner == items[j].file
    requires lane !in disk.markers ==> forall k :: 0 <= k < j ==> items[k].lane != lane
    ensures AllAside(disk, items[..j], lane, items[j].file, ctx.predecessors)
    ensures forall item :: item in items[j + 1..] ==> item.file != items[j].file
  {
    forall k | 0 <= k < |items| && k != j
      ensures items[k].file != items[j].file
    {
      assert if k < j then Before(items[k], items[j]) else Before(items[j], items[k]);
      BeforeTotal(items[k], items[j]);
    }
    forall item | item in items[..j]
      ensures Aside(disk, item, lane, items[j].file, ctx.predecessors)
    {
      var k :| 0 <= k < j && items[k] == item;
    }
  }

  /** No listed item of the lane before this one has an unusable sidecar. */
  predicate UsableBefore(disk: Disk, items: seq<Item>, j: nat)
    requires j < |items|
  {
    forall k :: 0 <= k < j && items[k].lane == items[j].lane ==> !Stuck(disk, items[k].file)
  }

  /**
    In a lane marked with one file, a flush of any disk sends something past an earlier file exactly when it
    comes to the marked one, that one is free to go, and no unusable sidecar takes the lane over before.
   */
  lemma MarkedOvertakesIff(disk: Disk, items: seq<Item>, kind: Kind, i: nat, j: nat, ctx: Context)
    requires Lists(items, disk.files, kind) && Alone(ctx, kind) && i < j < |items| && items[i].lane == items[j].lane
    requires Barred(disk, items[j].lane, items[j].file) && disk.markers[items[j].lane].owner == items[j].file
    ensures (exists send :: send in Flush(disk, items, ctx).sends && Overtakes(send, items[i])) <==>
      (&& !PausesAll(disk.auth, ctx.credential) && Free(disk, items[j], ctx) && UsableBefore(disk, items, j)
       && Reached(FlushAll(Start(disk, items), items[..j], ctx), items[j], ctx))
  {
    if !PausesAll(disk.auth, ctx.credential) {
      if UsableBefore(disk, items, j) {
        var lane, start := items[j].lane, Start(disk, items);
        ListedAside(disk, items, kind, j, lane, ctx);
        OthersLeave(start, items[..j], ctx, lane, items[j].file);
        var p := FlushAll(start, items[..j], ctx);
        FlushSplits(start, items, j, ctx);
        assert items[i] in items && items[j] in items;
        MarkedFlush(disk, p, items, kind, i, j, ctx);
      } else {
        var k := FirstStuck(disk, items, j, 0);
        StuckSendsNone(disk, items, kind, k, j, ctx);
      }
    }
  }

  lemma FirstStuck(disk: Disk, items: seq<Item>, j: nat, from: nat) returns (k: nat)
    requires j < |items| && from <= j && !UsableBefore(disk, items, j)
    requires forall l :: 0 <= l < from && items[l].lane == items[j].lane ==> !Stuck(disk, items[l].file)
    ensures k < j && items[k].lane == items[j].lane && Stuck(disk, items[k].file)
    ensures forall l :: 0 <= l < k && items[l].lane == items[j].lane ==> !Stuck(disk, items[l].file)
    decreases j - from
  {
    if items[from].lane == items[j].lane && Stuck(disk, items[from].file) {
      k := from;
    } else {
      k := FirstStuck(disk, items, j, from + 1);
    }
  }

  /** An unusable sidecar before the marked item takes the lane over when its turn comes: nothing of it is sent. */
  lemma StuckSendsNone(disk: Disk, items: seq<Item>, kind: Kind, k: nat, j: nat, ctx: Context)
    requires Lists(items, disk.files, kind) && Alone(ctx, kind) && k < j < |items| && items[k].lane == items[j].lane
    requires Barred(disk, items[j].lane, items[j].file) && disk.markers[items[j].lane].owner == items[j].file
    requires Stuck(disk, items[k].file)
    requires forall l :: 0 <= l < k && items[l].lane == items[j].lane ==> !Stuck(disk, items[l].file)
    ensures forall send :: send in FlushAll(Start(disk, items), items, ctx).sends ==> send.0.lane != items[j].lane
  {
    var lane, start := items[j].lane, Start(disk, items);
    BeforeStuckAside(disk, items, kind, k, j, ctx);
    OthersLeave(start, items[..k], ctx, lane, items[k].file);
    var p := FlushAll(start, items[..k], ctx);
    FlushSplits(start, items, k, ctx);
    assert items[k..][0] == items[k] && items[k..][1..] == items[k + 1..];
    StuckRest(disk, p, items[k..], ctx);
  }

  lemma StuckRest(disk: Disk, p: Progress, items: seq<Item>, ctx: Context)
    requires items != [] && Stuck(disk, items[0].file) && ctx.busy == {}
    requires ViewOf(p.disk, items[0].lane, items[0].file, ctx.predecessors)
          == ViewOf(disk, items[0].lane, items[0].file, ctx.predecessors)
    requires forall item :: item in items[1..] ==> item.file != items[0].file
    requires forall send :: send in p.sends ==> send.0.lane != items[0].lane
    ensures forall send :: send in FlushAll(p, items, ctx).sends ==> send.0.lane != items[0].lane
  {
    if !p.stopped {
      var p1 := FlushItem(p, items[0], ctx);
      StuckTurn(disk, p, items[0], ctx);
      if !p1.stopped {
        BarredLane(p1, items[1..], ctx, items[0].lane, items[0].file);
      }
    }
  }

  lemma BeforeStuckAside(disk: Disk, items: seq<Item>, kind: Kind, k: nat, j: nat, ctx: Context)
    requires Lists(items, disk.files, kind) && Alone(ctx, kind) && k < j < |items| && items[k].lane == items[j].lane
    requires Barred(disk, items[j].lane, items[j].file)
    requires disk.markers[items[j].lane].owner == items[j].file
    requires forall l :: 0 <= l < k && items[l].lane == items[j].lane ==> !Stuck(disk, items[l].file)
    ensures AllAside(disk, items[..k], items[j].lane, items[k].file, ctx.predecessors)
    ensures forall item :: item in items[k + 1..] ==> item.file != items[k].file
  {
    Distinct(disk, items, kind, k);
    Distinct(disk, items, kind, j);
    forall item | item in items[..k]
      ensures Aside(disk, item, items[j].lane, items[k].file, ctx.predecessors)
    {
      var l :| 0 <= l < k && items[l] == item;
    }
    forall item | item in items[k + 1..]
      ensures item.file != items[k].file
    {
      var l :| k < l < |items| && items[l] == item;
    }
  }

  lemma StuckTurn(disk: Disk, p: Progress, item: Item, ctx: Context)
    requires Stuck(disk, item.file) && ctx.busy == {} && !p.stopped
    requires ViewOf(p.disk, item.lane, item.file, ctx.predecessors)
          == ViewOf(disk, item.lane, item.file, ctx.predecessors)
    ensures var p' := FlushItem(p, item, ctx);
      p'.sends == p.sends && (p'.stopped || Barred(p'.disk, item.lane, item.file))
  {
    assert Get(p.disk.notes, item.file) == Get(disk.notes, item.file);
    assert Get(p.disk.files, item.file) == Get(disk.files, item.file);
    assert item.file in p.disk.files && Corrupt(p.disk, item);
  }

  lemma MarkedFlush(disk: Disk, p: Progress, items: seq<Item>, kind: Kind, i: nat, j: nat, ctx: Context)
    requires Lists(items, disk.files, kind) && i < j < |items| && items[i].lane == items[j].lane
    requires Barred(disk, items[j].lane, items[j].file) && disk.markers[items[j].lane].owner == items[j].file
    requires ViewOf(p.disk, items[j].lane, items[j].file, ctx.predecessors)
          == ViewOf(disk, items[j].lane, items[j].file, ctx.predecessors)
    requires LaneStays(Start(disk, items), p, items[j].lane)
    requires forall item :: item in items[j + 1..] ==> item.file != items[j].file
    ensures (exists send :: send in FlushAll(p, items[j..], ctx).sends && Overtakes(send, items[i])) <==>
      Reached(p, items[j], ctx) && Free(disk, items[j], ctx)
  {
    var item, end := items[j], FlushAll(p, items[j..], ctx);
    SameViewSameTurn(disk, p.disk, item, ctx);
    assert items[j..][0] == item && items[j..][1..] == items[j + 1..];
    if !p.stopped {
      var p1 := FlushItem(p, item, ctx);
      TurnSendsIff(p, item, ctx);
      assert end == FlushAll(p1, items[j + 1..], ctx);
      if p1.sends == p.sends {
        assert Get(p.disk.markers, item.lane) == Get(disk.markers, item.lane);
        assert Get(p.disk.files, item.file) == Get(disk.files, item.file);
        MarkedTurn(p, item, ctx);
        if !p1.stopped {
          BarredLane(p1, items[j + 1..], ctx, item.lane, item.file);
        }
      } else {
        SendsGrow(p1, items[j + 1..], ctx);
        assert (item, p.disk) == p1.sends[|p.sends|] == end.sends[|p.sends|];
        assert Overtakes((item, p.disk), items[i]);
      }
    }
  }

  lemma {:induction false} SendsGrow(p: Progress, items: seq<Item>, ctx: Context)
    ensures p.sends <= FlushAll(p, items, ctx).sends
    decreases |items|
  {
    if items != [] && !p.stopped {
      Flushes.SentOnce(p, items[0], ctx);
      SendsGrow(FlushItem(p, items[0], ctx), items[1..], ctx);
    }
  }

  /**
    A new envelope that arrives before a flush makes its listing, and sorts before the marked head of its
    lane, is overtaken by that flush exactly when the flush comes to the head and the head is free to go.
   */
  lemma LateArrivalIsOvertaken(disk: Disk, late: File, content: Content, items: seq<Item>, i: nat, j: nat, ctx: Context)
    requires Ordered(disk) && late !in disk.files && !BehindMarked(disk, late, content)
    requires Lists(items, disk.files[late := content], late.kind) && Alone(ctx, late.kind)
    requires i < |items| && items[i].file == late
    requires j < |items| && items[j].file == disk.markers[LaneOf(content)].owner
    ensures var after := disk.(files := disk.files[late := content]);
      (exists send :: send in Flush(after, items, ctx).sends && Overtakes(send, ItemOf(late, content))) <==>
        (&& !PausesAll(after.auth, ctx.credential) && Free(after, items[j], ctx) && !Stuck(after, late)
         && Reached(FlushAll(Start(after, items), items[..j], ctx), items[j], ctx))
  {
    var after := disk.(files := disk.files[late := content]);
    var lane, owner := LaneOf(content), disk.markers[LaneOf(content)].owner;
    assert MarkerOk(disk, lane, disk.markers[lane]);
    BeforeTotal(items[i], items[j]);
    assert !Before(items[j], items[i]) && i != j;
    assert i < j;
    forall k | 0 <= k < j && items[k].lane == lane
      ensures items[k].file == late
    {
      assert Before(items[k], items[j]);
      assert items[k].file in disk.files ==> Neighbours(disk, items[k].file, owner);
    }
    assert UsableBefore(after, items, j) <==> !Stuck(after, late);
    MarkedOvertakesIff(after, items, late.kind, i, j, ctx);
  }

  // ---------------------------------------------------------------- an unmarked lane

  lemma UnmarkedTurn(p: Progress, item: Item, ctx: Context)
    requires item.file in p.disk.files && item.lane !in p.disk.markers && !Preceded(p.disk, item, ctx.predecessors)
    ensures var p' := FlushItem(p, item, ctx);
      !p'.stopped && item.lane !in ctx.busy ==>
        if !Corrupt(p.disk, item) && Held(SidecarOf(p.disk, item.file), ctx.credential, TurnOf(ctx, item.file).now)
        then p'.disk == p.disk
        else item.file !in p'.disk.files || (item.lane in p'.disk.markers && p'.disk.markers[item.lane].Marker?
                                             && p'.disk.markers[item.lane].owner == item.file)
  {
  }

  /** The sends of a flush are of the items it lists. */
  lemma {:induction false} SendsAreListed(p: Progress, items: seq<Item>, ctx: Context)
    ensures var p' := FlushAll(p, items, ctx);
      p.sends <= p'.sends && forall i :: |p.sends| <= i < |p'.sends| ==> p'.sends[i].0 in items
    decreases |items|
  {
    if items != [] && !p.stopped {
      var p1, p' := FlushItem(p, items[0], ctx), FlushAll(p, items, ctx);
      Flushes.SentOnce(p, items[0], ctx);
      SendsAreListed(p1, items[1..], ctx);
      assert p' == FlushAll(p1, items[1..], ctx);
      assert forall i :: 0 <= i < |p1.sends| ==> p'.sends[i] == p1.sends[i];
    }
  }

  /** The second envelope of an unmarked lane is sent while the first is on disk. */
  ghost predicate PassedOver(sends: seq<(Item, Disk)>, first: Item, second: Item) {
    exists send :: send in sends && send.0 == second && first.file in send.1.files
  }

  /** From the turn of the second item on. */
  lemma SecondTurn(p: Progress, items: seq<Item>, first: Item, ctx: Context)
    requires items != [] && items[0] !in items[1..] && forall i :: 0 <= i < |p.sends| ==> p.sends[i].0 != items[0]
    ensures PassedOver(FlushAll(p, items, ctx).sends, first, items[0]) <==>
      Reached(p, items[0], ctx) && Free(p.disk, items[0], ctx) && first.file in p.disk.files
  {
    var end := FlushAll(p, items, ctx);
    if !p.stopped {
      var p1 := FlushItem(p, items[0], ctx);
      TurnSendsIff(p, items[0], ctx);
      SendsAreListed(p1, items[1..], ctx);
      assert end == FlushAll(p1, items[1..], ctx);
      if p1.sends != p.sends {
        assert end.sends[|p.sends|] == p1.sends[|p.sends|] == (items[0], p.disk);
      }
      forall i | 0 <= i < |end.sends| && end.sends[i].0 == items[0]
        ensures p1.sends != p.sends && i == |p.sends|
      {
        assert i < |p1.sends| && end.sends[i] == p1.sends[i];
      }
    }
  }

  /**
    In a lane that no marker names, a flush sends the second envelope past the first exactly when it comes
    to the second, the second is free to go, and the first is held back by its own usable sidecar.
   */
  lemma UnmarkedIsOvertakenIff(disk: Disk, items: seq<Item>, kind: Kind, i: nat, j: nat, ctx: Context)
    requires Lists(items, disk.files, kind) && Alone(ctx, kind) && i < j < |items| && items[i].lane == items[j].lane
    requires items[i].lane !in disk.markers
    requires forall k :: 0 <= k < j && k != i ==> items[k].lane != items[j].lane
    ensures PassedOver(Flush(disk, items, ctx).sends, items[i], items[j]) <==>
      (&& !PausesAll(disk.auth, ctx.credential) && Free(disk, items[j], ctx)
       && Reached(FlushAll(Start(disk, items), items[..j], ctx), items[j], ctx)
       && !Corrupt(disk, items[i])
       && Held(SidecarOf(disk, items[i].file), ctx.credential, TurnOf(ctx, items[i].file).now))
  {
    if !PausesAll(disk.auth, ctx.credential) {
      var start, lane := Start(disk, items), items[j].lane;
      var p := FlushAll(start, items[..i], ctx);
      UpToFirst(disk, items, kind, i, j, ctx);
      var p' := FlushAll(start, items[..j], ctx);
      FlushSplits(start, items, j, ctx);
      SendsAreListed(start, items[..j], ctx);
      Distinct(disk, items, kind, j);
      assert items[j..][0] == items[j] && items[j..][1..] == items[j + 1..];
      SecondTurn(p', items[j..], items[i], ctx);
      FirstTurn(disk, p, items, kind, i, j, ctx);
    }
  }

  lemma Distinct(disk: Disk, items: seq<Item>, kind: Kind, j: nat)
    requires Lists(items, disk.files, kind) && j < |items|
    ensures items[j] !in items[..j] && items[j] !in items[j + 1..]
    ensures forall k :: 0 <= k < |items| && k != j ==> items[k].file != items[j].file
  {
    forall k | 0 <= k < |items| && k != j
      ensures items[k].file != items[j].file
    {
      assert if k < j then Before(items[k], items[j]) else Before(items[j], items[k]);
      BeforeTotal(items[k], items[j]);
    }
  }

  lemma UpToFirst(disk: Disk, items: seq<Item>, kind: Kind, i: nat, j: nat, ctx: Context)
    requires Lists(items, disk.files, kind) && Alone(ctx, kind) && i < j < |items|
    requires forall k :: 0 <= k < j && k != i ==> items[k].lane != items[j].lane
    ensures var p := FlushAll(Start(disk, items), items[..i], ctx);
      && (forall k :: k in {i, j} ==>
            ViewOf(p.disk, items[j].lane, items[k].file, ctx.predecessors)
              == ViewOf(disk, items[j].lane, items[k].file, ctx.predecessors))
      && (forall item :: item in items && item.file in p.disk.files ==> item == Entry(p.disk, item.file))
  {
    var start := Start(disk, items);
    forall k | k in {i, j}
      ensures AllAside(disk, items[..i], items[j].lane, items[k].file, ctx.predecessors)
    {
      Distinct(disk, items, kind, k);
    }
    OthersLeave(start, items[..i], ctx, items[j].lane, items[i].file);
    OthersLeave(start, items[..i], ctx, items[j].lane, items[j].file);
    FilesShrink(start, items[..i], ctx);
  }

  lemma {:induction false} FilesShrink(p: Progress, items: seq<Item>, ctx: Context)
    ensures var disk := FlushAll(p, items, ctx).disk;
      forall f :: f in disk.files ==> f in p.disk.files && disk.files[f] == p.disk.files[f]
    decreases |items|
  {
    if items != [] && !p.stopped {
      Flushes.ItemEffect(p, items[0], ctx);
      FilesShrink(FlushItem(p, items[0], ctx), items[1..], ctx);
    }
  }

  /** What the turn of the first item leaves for the second. */
  lemma FirstTurn(disk: Disk, p: Progress, items: seq<Item>, kind: Kind, i: nat, j: nat, ctx: Context)
    requires Lists(items, disk.files, kind) && Alone(ctx, kind) && i < j < |items| && items[i].lane == items[j].lane
    requires items[i].lane !in disk.markers
    requires forall k :: 0 <= k < j && k != i ==> items[k].lane != items[j].lane
    requires p == FlushAll(Start(disk, items), items[..i], ctx)
    requires forall k :: k in {i, j} ==>
      ViewOf(p.disk, items[j].lane, items[k].file, ctx.predecessors)
        == ViewOf(disk, items[j].lane, items[k].file, ctx.predecessors)
    requires forall item :: item in items && item.file in p.disk.files ==> item == Entry(p.disk, item.file)
    ensures var p' := FlushAll(Start(disk, items), items[..j], ctx);
      Reached(p', items[j], ctx) ==>
        ((Free(p'.disk, items[j], ctx) && items[i].file in p'.disk.files) <==>
         (&& Free(disk, items[j], ctx) && !Corrupt(disk, items[i])
          && Held(SidecarOf(disk, items[i].file), ctx.credential, TurnOf(ctx, items[i].file).now)))
  {
    var start, first, second := Start(disk, items), items[i], items[j];
    var p' := FlushAll(start, items[..j], ctx);
    FlushSplits(start, items[..j], i, ctx);
    assert items[..j][..i] == items[..i] && items[..j][i..] == items[i..j] && items[i..j][1..] == items[i + 1..j];
    SameViewSameTurn(disk, p.disk, first, ctx);
    SameViewSameTurn(disk, p.disk, second, ctx);
    if Reached(p', second, ctx) {
      var p1 := FlushItem(p, first, ctx);
      assert !p.stopped && p' == FlushAll(p1, items[i + 1..j], ctx) && !p1.stopped;
      Distinct(disk, items, kind, i);
      Between(disk, p, p1, items, kind, i, j, ctx);
      SameViewSameTurn(p1.disk, p'.disk, second, ctx);
      assert first.file in p.disk.files && first == Entry(p.disk, first.file) by {
        assert first in items && Get(p.disk.files, first.file) == Get(disk.files, first.file);
      }
      if Preceded(p.disk, first, ctx.predecessors) {
        StillPreceded(p, first, second, ctx);
      } else {
        UnmarkedTurn(p, first, ctx);
      }
    }
  }

  /** A predecessor of the first item precedes the second too, and the turn of the first does not remove it. */
  lemma StillPreceded(p: Progress, first: Item, second: Item, ctx: Context)
    requires Preceded(p.disk, first, ctx.predecessors) && first.lane == second.lane && first.time <= second.time
    requires forall other :: other in ctx.predecessors ==> other.file != first.file
    ensures Preceded(p.disk, second, ctx.predecessors)
    ensures Preceded(FlushItem(p, first, ctx).disk, second, ctx.predecessors)
  {
    var other :|
      other in ctx.predecessors && other.lane == first.lane && other.time < first.time && other.file in p.disk.files;
    Flushes.FilesElsewhere(p, first, ctx, other.file);
  }

  /** The items between the two leave both as the first turn left them. */
  lemma Between(disk: Disk, p: Progress, p1: Progress, items: seq<Item>, kind: Kind, i: nat, j: nat, ctx: Context)
    requires Lists(items, disk.files, kind) && Alone(ctx, kind) && i < j < |items| && items[i].lane == items[j].lane
    requires forall k :: 0 <= k < j && k != i ==> items[k].lane != items[j].lane
    requires forall item :: item in items && item.file in p.disk.files ==> item == Entry(p.disk, item.file)
    requires p1 == FlushItem(p, items[i], ctx)
    ensures var p' := FlushAll(p1, items[i + 1..j], ctx);
      && ViewOf(p'.disk, items[j].lane, items[j].file, ctx.predecessors)
           == ViewOf(p1.disk, items[j].lane, items[j].file, ctx.predecessors)
      && (items[i].file in p1.disk.files <==> items[i].file in p'.disk.files)
  {
    Flushes.ItemEffect(p, items[i], ctx);
    Distinct(disk, items, kind, j);
    forall item | item in items[i + 1..j]
      ensures Aside(p1.disk, item, items[j].lane, items[j].file, ctx.predecessors)
    {
      var k :| i < k < j && items[k] == item;
      assert item in items;
    }
    OthersLeave(p1, items[i + 1..j], ctx, items[j].lane, items[j].file);
    FilesShrink(p1, items[i + 1..j], ctx);
    assert items[i] in items;
  }

  /**
    The sidecar of a failure is written before the marker. Stopping between the two keeps the order exactly
    when the lane was marked before, by an earlier failure of the same envelope.
   */
  lemma CrashKeepsIff(disk: Disk, item: Item, failure: Failure, now: real, rng: real, credential: string)
    requires Ordered(disk) && item.file in disk.files && item == Entry(disk, item.file)
    requires !Corrupt(disk, item) && !OwnedByOther(disk, item)
    ensures var next := RetryState(failure, SidecarOf(disk, item.file), now, rng, credential).(hash := item.hash);
      Ordered(WithNote(disk, item.file, next)) <==> item.lane in disk.markers
  {
    var next := RetryState(failure, SidecarOf(disk, item.file), now, rng, credential).(hash := item.hash);
    assert Waits(Note.Note(next));
    WaitingNoteIff(disk, item, next);
  }

  /** A waiting sidecar is in order exactly when its lane is marked with its file. */
  lemma WaitingNoteIff(disk: Disk, item: Item, next: Sidecar<Content>)
    requires Ordered(disk) && item.file in disk.files && item == Entry(disk, item.file) && Waits(Note.Note(next))
    requires !Corrupt(disk, item) && !OwnedByOther(disk, item)
    ensures Ordered(WithNote(disk, item.file, next)) <==> item.lane in disk.markers
  {
    var after := WithNote(disk, item.file, next);
    if item.lane in disk.markers {
      forall l | l in after.markers
        ensures MarkerOk(after, l, after.markers[l])
      {
        assert MarkerOk(disk, l, disk.markers[l]);
      }
      forall f | f in after.notes
        ensures NoteOk(after, f, after.notes[f])
      {
        assert f != item.file ==> NoteOk(disk, f, disk.notes[f]);
      }
    } else {
      assert !NoteOk(after, item.file, after.notes[item.file]);
    }
  }

  // ---------------------------------------------------------------- both happen

  /** The disk after the only envelope has failed once. */
  function FailedOnce(f: File, c: Content, ctx: Context, failure: Failure): Disk {
    var turn := TurnOf(ctx, f);
    var next := RetryState(failure, FreshSidecar(), turn.failedAt, turn.rng, ctx.credential).(hash := Some(c));
    Disk(map[f := c], map[f := Note(next)], map[LaneOf(c) := Marker(f, next.state)], NoAuth)
  }

  /** An undisturbed flush, the answer to which is a failure that may pass. */
  predicate FailsOn(f: File, c: Content, ctx: Context, failure: Failure) {
    && c.Envelope? && c.time.Text? && ctx.predecessors == [] && ctx.busy == {} && !TurnOf(ctx, f).late
    && Verdict(c, TurnOf(ctx, f).response) == Some(failure) && Classify(failure) == RetryWait
  }

  function FailingRun(f: File, c: Content, ctx: Context): seq<Step> {
    [Arrive(f, c), FlushQueue(f.kind, [ItemOf(f, c)], ctx, [])]
  }

  lemma FailedOnceReached(f: File, c: Content, ctx: Context, failure: Failure)
    requires FailsOn(f, c, ctx, failure)
    ensures AllEnabled(EMPTY, FailingRun(f, c, ctx))
    ensures Run(EMPTY, FailingRun(f, c, ctx)) == FailedOnce(f, c, ctx, failure)
    ensures Ordered(FailedOnce(f, c, ctx, failure))
  {
    var steps, queued := FailingRun(f, c, ctx), EMPTY.(files := map[f := c]);
    assert Next(EMPTY, steps[0]) == queued && Enabled(EMPTY, steps[0]);
    FailingFlush(f, c, ctx, failure);
    assert steps[1..] == [steps[1]] && steps[1..][1..] == [];
    assert Run(EMPTY, steps) == Run(queued, steps[1..]) == Run(Next(queued, steps[1]), []);
    assert AllEnabled(queued, steps[1..]);
    RunKeeps(EMPTY, steps);
  }

  lemma FailingFlush(f: File, c: Content, ctx: Context, failure: Failure)
    requires FailsOn(f, c, ctx, failure)
    ensures var queued, flush := EMPTY.(files := map[f := c]), FlushQueue(f.kind, [ItemOf(f, c)], ctx, []);
      Enabled(queued, flush) && Next(queued, flush) == FailedOnce(f, c, ctx, failure)
  {
    var queued, item := EMPTY.(files := map[f := c]), ItemOf(f, c);
    var start := Start(queued, [item]);
    assert [item][1..] == [] && FlushAll(start, [item], ctx) == FlushAll(FlushItem(start, item, ctx), [], ctx);
    A.AloneIsFlush(start, [item], ctx);
    QuietIsEnabled(start, [item], ctx);
    FailingTurn(start, f, c, ctx, failure);
  }

  lemma FailingTurn(start: Progress, f: File, c: Content, ctx: Context, failure: Failure)
    requires FailsOn(f, c, ctx, failure) && start == Start(EMPTY.(files := map[f := c]), [ItemOf(f, c)])
    ensures FlushItem(start, ItemOf(f, c), ctx).disk == FailedOnce(f, c, ctx, failure)
  {
  }

  /**
    It does happen: an envelope fails, an earlier one of its lane arrives, and once the retry is due a
    flush sends the failed one past it.
   */
  lemma OvertakingHappens(owner: File, c: Content, late: File, c': Content, ctx: Context, failure: Failure,
                          ctx': Context)
    requires FailsOn(owner, c, ctx, failure) && owner != late
    requires owner.kind == late.kind && LaneOf(c) == LaneOf(c') && Before(ItemOf(late, c'), ItemOf(owner, c))
    requires ctx'.predecessors == [] && ctx'.busy == {} && !TurnOf(ctx', owner).late && !TurnOf(ctx', late).late
    requires !Held(FailedOnce(owner, c, ctx, failure).notes[owner].sidecar, ctx'.credential, TurnOf(ctx', owner).now)
    ensures var disk := Run(EMPTY, FailingRun(owner, c, ctx));
      var after := disk.(files := disk.files[late := c']);
      var items := [ItemOf(late, c'), ItemOf(owner, c)];
      && AllEnabled(EMPTY, FailingRun(owner, c, ctx)) && Lists(items, after.files, owner.kind)
      && exists send :: send in Flush(after, items, ctx').sends && Overtakes(send, items[0])
  {
    FailedOnceReached(owner, c, ctx, failure);
    var disk, items := FailedOnce(owner, c, ctx, failure), [ItemOf(late, c'), ItemOf(owner, c)];
    var after := disk.(files := disk.files[late := c']);
    BeforeTotal(items[0], items[1]);
    LateArrivalIsOvertaken(disk, late, c', items, 0, 1, ctx');
    GapFirst(after, items, ctx');
    assert Free(after, items[1], ctx');
  }

  lemma GapFirst(disk: Disk, items: seq<Item>, ctx: Context)
    requires items != [] && items[0].lane !in ctx.busy && !TurnOf(ctx, items[0].file).late && ctx.predecessors == []
    requires items[0].file in disk.files && !Corrupt(disk, items[0]) && OwnedByOther(disk, items[0])
    ensures var p := FlushAll(Start(disk, items), items[..1], ctx); !p.stopped && p.attempts == 0
  {
    var start := Start(disk, items);
    assert items[..1] == [items[0]] && [items[0]][1..] == [];
    assert FlushAll(start, [items[0]], ctx) == FlushAll(FlushItem(start, items[0], ctx), [], ctx);
  }
}
