/** When a file that arrives during a flush is overtaken by it: exactly when, at any point, whatever else happens. */
module MidFlush {
  import opened Wrappers
  import opened Receipts
  import opened Outbox
  import opened LaneOrder
  import opened Overtaking
  import Flushes
  import M = Mishaps
  import A = Arrivals

  function Drop(around: seq<A.Around>, j: nat): seq<A.Around>
    decreases j
  {
    if j == 0 then around else Drop(A.Later(around), j - 1)
  }

  /** The turn sends its item: the flush comes to it, it is free to go, and its worker lives to count the attempt. */
  predicate Sends(p: Progress, item: Item, ctx: Context, mishap: M.Mishap) {
    Reached(p, item, ctx) && Free(p.disk, item, ctx) && (mishap.Safe? || !mishap.point.Begun?)
  }

  lemma TurnWithSendsIff(p: Progress, item: Item, ctx: Context, mishap: M.Mishap)
    requires !p.stopped
    ensures var p' := M.TurnWith(p, item, ctx, mishap);
      && (Sends(p, item, ctx, mishap) ==> p'.sends == p.sends + [(item, p.disk)])
      && (!Sends(p, item, ctx, mishap) ==> p'.sends == p.sends && p'.disk.files == p.disk.files)
  {
    TurnSendsIff(p, item, ctx);
    Flushes.ItemEffect(p, item, ctx);
  }

  // ---------------------------------------------------------------- a flush in two parts

  lemma AloneUnfolds(p: Progress, items: seq<Item>, ctx: Context, around: seq<A.Around>)
    requires items != [] && !p.stopped
    ensures var p1 := M.TurnWith(p, items[0], ctx, A.First(around).mishap);
      && A.FlushAlone(p, items, ctx, around) == A.FlushAlone(p1, items[1..], ctx, A.Later(around))
      && (KeepsTrack(p, items, ctx, around) <==>
            !LosesTrack(p, items[0], ctx, A.First(around).mishap) && KeepsTrack(p1, items[1..], ctx, A.Later(around)))
  {
  }

  lemma AmidUnfolds(q: Progress, items: seq<Item>, ctx: Context, around: seq<A.Around>)
    requires items != [] && !q.stopped
    ensures var q1 := A.Turned(q, items[0], ctx, A.First(around));
      && A.FlushAmid(q, items, ctx, around) == A.FlushAmid(q1, items[1..], ctx, A.Later(around))
      && (A.AllNew(q, items, ctx, around) <==>
            && A.New(q.disk, A.First(around).batch, items, ctx.predecessors)
            && A.AllNew(q1, items[1..], ctx, A.Later(around)))
  {
  }

  lemma HeadAndTail(items: seq<Item>, j: nat)
    requires 0 < j <= |items|
    ensures items[..j] != [] && items[..j][0] == items[0]
    ensures items[..j][1..] == items[1..][..j - 1] && items[1..][j - 1..] == items[j..]
  {
  }

  lemma {:induction false} AmidSplits(q: Progress, items: seq<Item>, j: nat, ctx: Context, around: seq<A.Around>)
    requires j <= |items|
    ensures A.FlushAmid(q, items, ctx, around)
         == A.FlushAmid(A.FlushAmid(q, items[..j], ctx, around), items[j..], ctx, Drop(around, j))
    decreases j
  {
    if j == 0 || q.stopped {
      assert j == 0 ==> items[..j] == [] && items[j..] == items;
    } else {
      HeadAndTail(items, j);
      AmidUnfolds(q, items, ctx, around);
      AmidUnfolds(q, items[..j], ctx, around);
      AmidSplits(A.Turned(q, items[0], ctx, A.First(around)), items[1..], j - 1, ctx, A.Later(around));
    }
  }

  lemma {:induction false} NewSplits(q: Progress, items: seq<Item>, j: nat, ctx: Context, around: seq<A.Around>)
    requires j <= |items| && A.AllNew(q, items, ctx, around)
    ensures A.AllNew(q, items[..j], ctx, around)
    ensures A.AllNew(A.FlushAmid(q, items[..j], ctx, around), items[j..], ctx, Drop(around, j))
    decreases j
  {
    if j == 0 || q.stopped {
      assert j == 0 ==> items[..j] == [] && items[j..] == items;
    } else {
      HeadAndTail(items, j);
      AmidUnfolds(q, items, ctx, around);
      AmidUnfolds(q, items[..j], ctx, around);
      NewSplits(A.Turned(q, items[0], ctx, A.First(around)), items[1..], j - 1, ctx, A.Later(around));
      NewToFewer(q.disk, A.First(around).batch, items, j, ctx.predecessors);
    }
  }

  lemma NewToFewer(disk: Disk, batch: A.Batch, items: seq<Item>, j: nat, predecessors: seq<Item>)
    requires j <= |items| && A.New(disk, batch, items, predecessors)
    ensures A.New(disk, batch, items[..j], predecessors)
  {
    assert forall item :: item in items[..j] ==> item in items;
  }

  lemma {:induction false} TrackSplits(p: Progress, items: seq<Item>, j: nat, ctx: Context, around: seq<A.Around>)
    requires j <= |items| && KeepsTrack(p, items, ctx, around)
    ensures KeepsTrack(p, items[..j], ctx, around)
    ensures KeepsTrack(A.FlushAlone(p, items[..j], ctx, around), items[j..], ctx, Drop(around, j))
    decreases j
  {
    if j == 0 || p.stopped {
      assert j == 0 ==> items[..j] == [] && items[j..] == items;
    } else {
      HeadAndTail(items, j);
      AloneUnfolds(p, items, ctx, around);
      AloneUnfolds(p, items[..j], ctx, around);
      TrackSplits(M.TurnWith(p, items[0], ctx, A.First(around).mishap), items[1..], j - 1, ctx, A.Later(around));
    }
  }

  lemma {:induction false} SoundAlong(p: Progress, items: seq<Item>, j: nat, kind: Kind, ctx: Context,
                                      around: seq<A.Around>)
    requires j <= |items| && Alone(ctx, kind) && AllInOrder(p, ctx.predecessors) && KeepsTrack(p, items, ctx, around)
    requires !p.stopped ==> Sound(p.disk, items, kind, ctx.predecessors)
    ensures var p' := A.FlushAlone(p, items[..j], ctx, around);
      AllInOrder(p', ctx.predecessors) && (!p'.stopped ==> Sound(p'.disk, items[j..], kind, ctx.predecessors))
    decreases j
  {
    if j == 0 || p.stopped {
      assert j == 0 ==> items[..j] == [] && items[j..] == items;
    } else {
      HeadAndTail(items, j);
      AloneUnfolds(p, items, ctx, around);
      AloneUnfolds(p, items[..j], ctx, around);
      TurnKeeps(p, items, kind, ctx, A.First(around).mishap);
      SoundAlong(M.TurnWith(p, items[0], ctx, A.First(around).mishap), items[1..], j - 1, kind, ctx, A.Later(around));
    }
  }

  /** What is on disk and not listed does not arrive again. */
  lemma {:induction false} NotTaken(q: Progress, items: seq<Item>, ctx: Context, around: seq<A.Around>, b: File)
    requires A.AllNew(q, items, ctx, around) && b in q.disk.files && forall item :: item in items ==> item.file != b
    ensures b !in A.Taken(q, items, ctx, around)
    decreases |items|
  {
    if items != [] && !q.stopped {
      var first := A.First(around);
      var q1 := q.(disk := A.Add(q.disk, first.batch));
      assert items[0] in items && forall item :: item in items[1..] ==> item in items;
      M.FilesElsewhere(q1, items[0], ctx, first.mishap, b);
      assert M.Get(M.TurnWith(q1, items[0], ctx, first.mishap).disk.files, b) == Some(q1.disk.files[b]);
      NotTaken(A.Turned(q, items[0], ctx, first), items[1..], ctx, A.Later(around), b);
    }
  }

  /** New sends are of the items listed, and while a file is not listed it stays on disk. */
  lemma {:induction false} AloneSends(p: Progress, items: seq<Item>, ctx: Context, around: seq<A.Around>, f: File)
    requires f in p.disk.files && forall item :: item in items ==> item.file != f
    ensures var p' := A.FlushAlone(p, items, ctx, around);
      && p.sends <= p'.sends
      && forall i :: |p.sends| <= i < |p'.sends| ==>
           p'.sends[i].0 in items && f in p'.sends[i].1.files && p'.sends[i].1.files[f] == p.disk.files[f]
    decreases |items|
  {
    if items != [] && !p.stopped {
      var p1, p' := M.TurnWith(p, items[0], ctx, A.First(around).mishap), A.FlushAlone(p, items, ctx, around);
      assert items[0] in items && forall item :: item in items[1..] ==> item in items;
      M.SentAtMost(p, items[0], ctx, A.First(around).mishap);
      M.FilesElsewhere(p, items[0], ctx, A.First(around).mishap, f);
      assert M.Get(p1.disk.files, f) == Some(p.disk.files[f]);
      AloneSends(p1, items[1..], ctx, A.Later(around), f);
      assert p' == A.FlushAlone(p1, items[1..], ctx, A.Later(around));
      assert forall i :: 0 <= i < |p1.sends| ==> p'.sends[i] == p1.sends[i];
    }
  }

  lemma {:induction false} AloneSendsListed(p: Progress, items: seq<Item>, ctx: Context, around: seq<A.Around>)
    ensures var p' := A.FlushAlone(p, items, ctx, around);
      p.sends <= p'.sends && forall i :: |p.sends| <= i < |p'.sends| ==> p'.sends[i].0 in items
    decreases |items|
  {
    if items != [] && !p.stopped {
      var p1, p' := M.TurnWith(p, items[0], ctx, A.First(around).mishap), A.FlushAlone(p, items, ctx, around);
      M.SentAtMost(p, items[0], ctx, A.First(around).mishap);
      AloneSendsListed(p1, items[1..], ctx, A.Later(around));
      assert p' == A.FlushAlone(p1, items[1..], ctx, A.Later(around));
      assert forall i :: 0 <= i < |p1.sends| ==> p'.sends[i] == p1.sends[i];
    }
  }

  // ---------------------------------------------------------------- the first listed item that the file comes before

  /** In a sound flush, while its first item is not sent, nothing of that lane is. */
  lemma UnsentHoldsLane(p: Progress, items: seq<Item>, kind: Kind, ctx: Context, around: seq<A.Around>)
    requires items != [] && Sound(p.disk, items, kind, ctx.predecessors) && Alone(ctx, kind)
    requires AllInOrder(p, ctx.predecessors) && KeepsTrack(p, items, ctx, around) && !p.stopped
    requires !Sends(p, items[0], ctx, A.First(around).mishap)
    ensures var p' := A.FlushAlone(p, items, ctx, around);
      && p.sends <= p'.sends
      && forall i :: |p.sends| <= i < |p'.sends| ==> p'.sends[i].0.lane != items[0].lane
  {
    var item, mishap, p' := items[0], A.First(around).mishap, A.FlushAlone(p, items, ctx, around);
    var p1 := M.TurnWith(p, item, ctx, mishap);
    TurnWithSendsIff(p, item, ctx, mishap);
    TurnKeeps(p, items, kind, ctx, mishap);
    FlushKeeps(p1, items[1..], kind, ctx, A.Later(around));
    assert p' == A.FlushAlone(p1, items[1..], ctx, A.Later(around));
    Others(p.disk, items, kind);
    AloneSends(p1, items[1..], ctx, A.Later(around), item.file);
    forall i | |p.sends| <= i < |p'.sends|
      ensures p'.sends[i].0.lane != item.lane
    {
      assert p'.sends[i].0 in items[1..];
      NotOfItsLane(p'.sends[i].1, item, p'.sends[i].0, ctx.predecessors);
    }
  }

  lemma NotOfItsLane(disk: Disk, item: Item, later: Item, predecessors: seq<Item>)
    requires InOrder(later, disk, predecessors) && item.file in disk.files && item == Entry(disk, item.file)
    requires Before(item, later) && item.file.kind == later.file.kind
    ensures later.lane != item.lane
  {
    var together := Neighbours(disk, item.file, later.file);
  }

  lemma Others(disk: Disk, items: seq<Item>, kind: Kind)
    requires items != [] && Rest(disk, items, kind)
    ensures forall other :: other in items[1..] ==>
      other.file != items[0].file && Before(items[0], other) && other.file.kind == items[0].file.kind
  {
    forall other | other in items[1..]
      ensures other.file != items[0].file && Before(items[0], other) && other.file.kind == items[0].file.kind
    {
      var i :| 0 <= i < |items[1..]| && items[1..][i] == other;
      assert Before(items[0], items[i + 1]);
      BeforeTotal(items[0], items[0]);
    }
  }

  /** From the turn of that item on: something overtakes the file exactly when the item is sent. */
  lemma FromItsTurn(p: Progress, q: Progress, extra: A.Batch, items: seq<Item>, kind: Kind, ctx: Context,
                    around: seq<A.Around>, b: File)
    requires items != [] && A.InStep(p, q, extra, ctx) && b in extra && b.kind == kind
    requires (forall item :: item in items ==> item.file !in extra) && A.AllNew(q, items, ctx, around)
    requires !p.stopped ==> Sound(p.disk, items, kind, ctx.predecessors)
    requires Alone(ctx, kind) && AllInOrder(p, ctx.predecessors) && KeepsTrack(p, items, ctx, around)
    requires items[0].lane == LaneOf(extra[b]) && Before(ItemOf(b, extra[b]), items[0])
    ensures var end := A.FlushAmid(q, items, ctx, around);
      (exists i :: |q.sends| <= i < |end.sends| && Overtakes(end.sends[i], ItemOf(b, extra[b]))) <==>
        Sends(q, items[0], ctx, A.First(around).mishap)
  {
    var end, mishap := A.FlushAmid(q, items, ctx, around), A.First(around).mishap;
    if !q.stopped {
      assert items[0] in items;
      SendsAlike(p, q, extra, items[0], ctx, mishap);
      A.FlushInStep(p, q, extra, items, ctx, around);
      if Sends(q, items[0], ctx, mishap) {
        var q0 := q.(disk := A.Add(q.disk, A.First(around).batch));
        SendsAlike(q, q0, A.First(around).batch, items[0], ctx, mishap);
        TurnWithSendsIff(q0, items[0], ctx, mishap);
        A.Unfolded(q, items, ctx, around);
        AmidGrows(A.Turned(q, items[0], ctx, A.First(around)), items[1..], ctx, A.Later(around));
        assert end.sends[|q.sends|] == (items[0], q0.disk);
      } else {
        UnsentHoldsLane(p, items, kind, ctx, around);
        var alone := A.FlushAlone(p, items, ctx, around);
        assert forall i :: 0 <= i < |end.sends| ==> A.Shadows(alone.sends[i], end.sends[i], ctx.predecessors);
      }
    }
  }

  /** Whether an item is sent does not depend on files it does not see. */
  lemma SendsAlike(p: Progress, q: Progress, extra: A.Batch, item: Item, ctx: Context, mishap: M.Mishap)
    requires A.Alike(p, q, extra) && item.file !in extra
    requires forall other :: other in ctx.predecessors ==> other.file !in extra
    ensures Sends(p, item, ctx, mishap) <==> Sends(q, item, ctx, mishap)
  {
    A.ChecksAmid(p.disk, extra, item, ctx);
  }

  lemma {:induction false} AmidGrows(q: Progress, items: seq<Item>, ctx: Context, around: seq<A.Around>)
    ensures q.sends <= A.FlushAmid(q, items, ctx, around).sends
    decreases |items|
  {
    if items != [] && !q.stopped {
      var first := A.First(around);
      M.SentAtMost(q.(disk := A.Add(q.disk, first.batch)), items[0], ctx, first.mishap);
      AmidGrows(A.Turned(q, items[0], ctx, first), items[1..], ctx, A.Later(around));
    }
  }

  /** A flush at some point of its listing, sound but for what has arrived. */
  ghost predicate UnderWay(p: Progress, q: Progress, extra: A.Batch, rest: seq<Item>, kind: Kind, ctx: Context,
                           around: seq<A.Around>) {
    && A.InStep(p, q, extra, ctx) && (forall item :: item in rest ==> item.file !in extra)
    && !p.stopped && Sound(p.disk, rest, kind, ctx.predecessors) && Alone(ctx, kind) && AllInOrder(p, ctx.predecessors)
    && KeepsTrack(p, rest, ctx, around) && A.AllNew(q, rest, ctx, around)
  }

  /** The j-th item listed is the first of this lane that this one comes before. */
  predicate FirstAfter(item: Item, rest: seq<Item>, j: nat) {
    && j < |rest| && rest[j].lane == item.lane && Before(item, rest[j])
    && forall k :: 0 <= k < j && rest[k].lane == item.lane ==> !Before(item, rest[k])
  }

  /**
    A file that arrives at any point of a flush is overtaken by it exactly when the first item still listed
    of its lane that it sorts before is sent: the flush comes to it, and it is free to go. Which files arrive
    before or after, and where they sort, makes no difference.
   */
  lemma ArrivalIsOvertakenIff(p: Progress, q: Progress, extra: A.Batch, rest: seq<Item>, kind: Kind, ctx: Context,
                              around: seq<A.Around>, b: File, j: nat)
    requires UnderWay(p, q, extra, rest, kind, ctx, around) && b in extra && b.kind == kind
    requires FirstAfter(ItemOf(b, extra[b]), rest, j)
    ensures var end := A.FlushAmid(q, rest, ctx, around);
      (exists i :: |q.sends| <= i < |end.sends| && Overtakes(end.sends[i], ItemOf(b, extra[b]))) <==>
        Sends(A.FlushAmid(q, rest[..j], ctx, around), rest[j], ctx, A.First(Drop(around, j)).mishap)
  {
    var q', end := A.FlushAmid(q, rest[..j], ctx, around), A.FlushAmid(q, rest, ctx, around);
    var p', extra' := A.FlushAlone(p, rest[..j], ctx, around), extra + A.Taken(q, rest[..j], ctx, around);
    Prefix(p, q, extra, rest, kind, ctx, around, j);
    StillExtra(p, q, extra, rest, ctx, around, b, j);
    assert rest[j..][0] == rest[j];
    FromItsTurn(p', q', extra', rest[j..], kind, ctx, Drop(around, j), b);
    AmidSplits(q, rest, j, ctx, around);
    AmidGrows(q', rest[j..], ctx, Drop(around, j));
    AmidGrows(q, rest[..j], ctx, around);
    NoneBefore(p, q, extra, rest, kind, ctx, around, b, j);
    assert forall i :: 0 <= i < |q'.sends| ==> end.sends[i] == q'.sends[i];
  }

  lemma StillExtra(p: Progress, q: Progress, extra: A.Batch, rest: seq<Item>, ctx: Context, around: seq<A.Around>,
                   b: File, j: nat)
    requires A.InStep(p, q, extra, ctx) && (forall item :: item in rest ==> item.file !in extra) && b in extra
    requires j <= |rest| && A.AllNew(q, rest, ctx, around)
    requires A.InStep(A.FlushAlone(p, rest[..j], ctx, around), A.FlushAmid(q, rest[..j], ctx, around),
                      extra + A.Taken(q, rest[..j], ctx, around), ctx)
    ensures var extra' := extra + A.Taken(q, rest[..j], ctx, around);
      && b in extra' && extra'[b] == extra[b] && (forall item :: item in rest[j..] ==> item.file !in extra')
  {
    NewSplits(q, rest, j, ctx, around);
    assert forall item :: item in rest[..j] ==> item in rest;
    NotTaken(q, rest[..j], ctx, around, b);
    forall item | item in rest[j..]
      ensures item.file !in A.Taken(q, rest[..j], ctx, around)
    {
      assert item in rest;
      ListedNotTaken(q, rest, j, ctx, around, item);
    }
  }

  lemma {:induction false} ListedNotTaken(q: Progress, items: seq<Item>, j: nat, ctx: Context, around: seq<A.Around>,
                                          item: Item)
    requires j <= |items| && A.AllNew(q, items, ctx, around) && item in items[j..]
    ensures item.file !in A.Taken(q, items[..j], ctx, around)
    decreases j
  {
    if j > 0 && !q.stopped {
      assert item in items && items[..j][1..] == items[1..][..j - 1] && items[1..][j - 1..] == items[j..];
      ListedNotTaken(A.Turned(q, items[0], ctx, A.First(around)), items[1..], j - 1, ctx, A.Later(around), item);
    }
  }

  /** The items before the first that the file comes before do not overtake it. */
  lemma NoneBefore(p: Progress, q: Progress, extra: A.Batch, rest: seq<Item>, kind: Kind, ctx: Context,
                   around: seq<A.Around>, b: File, j: nat)
    requires UnderWay(p, q, extra, rest, kind, ctx, around) && b in extra && j <= |rest|
    requires forall k :: 0 <= k < j && rest[k].lane == LaneOf(extra[b]) ==> !Before(ItemOf(b, extra[b]), rest[k])
    ensures var q' := A.FlushAmid(q, rest[..j], ctx, around);
      forall i :: |q.sends| <= i < |q'.sends| ==> !Overtakes(q'.sends[i], ItemOf(b, extra[b]))
  {
    var p', q' := A.FlushAlone(p, rest[..j], ctx, around), A.FlushAmid(q, rest[..j], ctx, around);
    Prefix(p, q, extra, rest, kind, ctx, around, j);
    AloneSendsListed(p, rest[..j], ctx, around);
    forall i | |q.sends| <= i < |q'.sends|
      ensures !Overtakes(q'.sends[i], ItemOf(b, extra[b]))
    {
      assert A.Shadows(p'.sends[i], q'.sends[i], ctx.predecessors) && p'.sends[i].0 in rest[..j];
    }
  }

  /** And with no such item listed, nothing overtakes it in this flush. */
  lemma ArrivalIsNotOvertaken(p: Progress, q: Progress, extra: A.Batch, rest: seq<Item>, kind: Kind, ctx: Context,
                              around: seq<A.Around>, b: File)
    requires UnderWay(p, q, extra, rest, kind, ctx, around) && b in extra
    requires forall k :: 0 <= k < |rest| && rest[k].lane == LaneOf(extra[b]) ==> !Before(ItemOf(b, extra[b]), rest[k])
    ensures var end := A.FlushAmid(q, rest, ctx, around);
      forall i :: |q.sends| <= i < |end.sends| ==> !Overtakes(end.sends[i], ItemOf(b, extra[b]))
  {
    assert rest[..|rest|] == rest;
    NoneBefore(p, q, extra, rest, kind, ctx, around, b, |rest|);
  }

  /** After the items before the j-th, the flush is still under way, and the file still there. */
  lemma Prefix(p: Progress, q: Progress, extra: A.Batch, rest: seq<Item>, kind: Kind, ctx: Context,
               around: seq<A.Around>, j: nat)
    requires UnderWay(p, q, extra, rest, kind, ctx, around) && j <= |rest|
    ensures var p', q' := A.FlushAlone(p, rest[..j], ctx, around), A.FlushAmid(q, rest[..j], ctx, around);
      && A.InStep(p', q', extra + A.Taken(q, rest[..j], ctx, around), ctx)
      && AllInOrder(p', ctx.predecessors) && (!p'.stopped ==> Sound(p'.disk, rest[j..], kind, ctx.predecessors))
      && KeepsTrack(p', rest[j..], ctx, Drop(around, j)) && A.AllNew(q', rest[j..], ctx, Drop(around, j))
  {
    assert forall item :: item in rest[..j] ==> item in rest;
    NewSplits(q, rest, j, ctx, around);
    A.FlushInStep(p, q, extra, rest[..j], ctx, around);
    SoundAlong(p, rest, j, kind, ctx, around);
    TrackSplits(p, rest, j, ctx, around);
  }

  /** Every flush of an ordered disk is under way from its start. */
  lemma StartsUnderWay(disk: Disk, items: seq<Item>, kind: Kind, ctx: Context, around: seq<A.Around>)
    requires Ordered(disk) && Lists(items, disk.files, kind) && Alone(ctx, kind)
    requires KeepsTrack(Start(disk, items), items, ctx, around) && A.AllNew(Start(disk, items), items, ctx, around)
    ensures UnderWay(Start(disk, items), Start(disk, items), map[], items, kind, ctx, around)
  {
    ListingIsSound(disk, items, kind, ctx.predecessors);
    assert A.Add(disk, map[]) == disk;
  }

  // ---------------------------------------------------------------- every arrival of every flush

  /** What has arrived before the next turn, counted as there already. */
  function Landed(around: seq<A.Around>): seq<A.Around> {
    [A.Around(map[], A.First(around).mishap)] + A.Later(around)
  }

  lemma LandedIsSame(q: Progress, items: seq<Item>, ctx: Context, around: seq<A.Around>)
    requires items != [] && !q.stopped
    ensures var landed := q.(disk := A.Add(q.disk, A.First(around).batch));
      A.FlushAmid(landed, items, ctx, Landed(around)) == A.FlushAmid(q, items, ctx, around)
  {
    var landed := q.(disk := A.Add(q.disk, A.First(around).batch));
    assert A.Add(landed.disk, map[]) == landed.disk && A.Later(Landed(around)) == A.Later(around);
    AmidUnfolds(q, items, ctx, around);
    AmidUnfolds(landed, items, ctx, Landed(around));
  }

  lemma LandedIsUnderWay(p: Progress, q: Progress, extra: A.Batch, rest: seq<Item>, kind: Kind, ctx: Context,
                         around: seq<A.Around>)
    requires UnderWay(p, q, extra, rest, kind, ctx, around) && rest != []
    ensures var batch := A.First(around).batch;
      UnderWay(p, q.(disk := A.Add(q.disk, batch)), extra + batch, rest, kind, ctx, Landed(around))
  {
    AmidUnfolds(q, rest, ctx, around);
    LandedInStep(p, q, extra, rest, ctx, A.First(around).batch);
    LandedIsNew(q, rest, ctx, around);
    AloneUnfolds(p, rest, ctx, around);
    AloneUnfolds(p, rest, ctx, Landed(around));
    assert A.Later(Landed(around)) == A.Later(around);
  }

  lemma LandedInStep(p: Progress, q: Progress, extra: A.Batch, rest: seq<Item>, ctx: Context, batch: A.Batch)
    requires A.InStep(p, q, extra, ctx) && A.New(q.disk, batch, rest, ctx.predecessors)
    ensures A.InStep(p, q.(disk := A.Add(q.disk, batch)), extra + batch, ctx)
  {
    A.Associative(p.disk.files, extra, batch);
  }

  lemma LandedIsNew(q: Progress, rest: seq<Item>, ctx: Context, around: seq<A.Around>)
    requires A.AllNew(q, rest, ctx, around) && rest != [] && !q.stopped
    ensures A.AllNew(q.(disk := A.Add(q.disk, A.First(around).batch)), rest, ctx, Landed(around))
  {
    var landed := q.(disk := A.Add(q.disk, A.First(around).batch));
    assert A.Add(landed.disk, map[]) == landed.disk && A.Later(Landed(around)) == A.Later(around);
    AmidUnfolds(q, rest, ctx, around);
    AmidUnfolds(landed, rest, ctx, Landed(around));
  }

  lemma StaysUnderWay(p: Progress, q: Progress, extra: A.Batch, rest: seq<Item>, kind: Kind, ctx: Context,
                      around: seq<A.Around>, j: nat)
    requires UnderWay(p, q, extra, rest, kind, ctx, around) && j <= |rest|
    requires !A.FlushAmid(q, rest[..j], ctx, around).stopped
    ensures UnderWay(A.FlushAlone(p, rest[..j], ctx, around), A.FlushAmid(q, rest[..j], ctx, around),
                     extra + A.Taken(q, rest[..j], ctx, around), rest[j..], kind, ctx, Drop(around, j))
  {
    Prefix(p, q, extra, rest, kind, ctx, around, j);
    forall item | item in rest[j..]
      ensures item.file !in extra + A.Taken(q, rest[..j], ctx, around)
    {
      assert item in rest;
      ListedNotTaken(q, rest, j, ctx, around, item);
    }
  }

  lemma {:induction false} DropTwice(around: seq<A.Around>, i: nat, n: nat)
    ensures Drop(Drop(around, i), n) == Drop(around, i + n)
    decreases i
  {
    if i > 0 {
      DropTwice(A.Later(around), i - 1, n);
    }
  }

  lemma DropLanded(around: seq<A.Around>, n: nat)
    ensures A.First(Drop(Landed(around), n)).mishap == A.First(Drop(around, n)).mishap
  {
    assert A.Later(Landed(around)) == A.Later(around);
  }

  /** What comes after this point of a flush sends something past the file. */
  predicate PassesLater(q: Progress, items: seq<Item>, ctx: Context, around: seq<A.Around>, item: Item) {
    var end := A.FlushAmid(q, items, ctx, around);
    exists k :: |q.sends| <= k < |end.sends| && Overtakes(end.sends[k], item)
  }

  /** The n-th item from this point on is sent. */
  predicate SendsAt(q: Progress, items: seq<Item>, ctx: Context, around: seq<A.Around>, n: nat)
    requires n < |items|
  {
    Sends(A.FlushAmid(q, items[..n], ctx, around), items[n], ctx, A.First(Drop(around, n)).mishap)
  }

  /** A file that arrives before the next turn. */
  lemma NextArrivalIff(p: Progress, q: Progress, extra: A.Batch, rest: seq<Item>, kind: Kind, ctx: Context,
                       around: seq<A.Around>, b: File, j: nat)
    requires UnderWay(p, q, extra, rest, kind, ctx, around) && b in A.First(around).batch && b.kind == kind
    requires FirstAfter(ItemOf(b, A.First(around).batch[b]), rest, j)
    ensures PassesLater(q, rest, ctx, around, ItemOf(b, A.First(around).batch[b])) <==> SendsAt(q, rest, ctx, around, j)
  {
    var batch := A.First(around).batch;
    var landed := q.(disk := A.Add(q.disk, batch));
    LandedIsUnderWay(p, q, extra, rest, kind, ctx, around);
    assert (extra + batch)[b] == batch[b];
    ArrivalIsOvertakenIff(p, landed, extra + batch, rest, kind, ctx, Landed(around), b, j);
    LandedIsSame(q, rest, ctx, around);
    DropLanded(around, j);
    SendsLanded(q, rest, ctx, around, j);
  }

  /** Counting a file as there already makes no difference to what is sent. */
  lemma SendsLanded(q: Progress, rest: seq<Item>, ctx: Context, around: seq<A.Around>, j: nat)
    requires j < |rest| && A.AllNew(q, rest, ctx, around) && !q.stopped
    ensures var landed, mishap := q.(disk := A.Add(q.disk, A.First(around).batch)), A.First(Drop(around, j)).mishap;
      Sends(A.FlushAmid(q, rest[..j], ctx, around), rest[j], ctx, mishap) <==>
        Sends(A.FlushAmid(landed, rest[..j], ctx, Landed(around)), rest[j], ctx, mishap)
  {
    if j > 0 {
      LandedIsSame(q, rest[..j], ctx, around);
    } else {
      var landed := q.(disk := A.Add(q.disk, A.First(around).batch));
      AmidUnfolds(q, rest, ctx, around);
      SendsAlike(q, landed, A.First(around).batch, rest[0], ctx, A.First(around).mishap);
    }
  }

  /** A file that arrives before the i-th turn from here. */
  lemma {:induction false} LaterArrivalIff(p: Progress, q: Progress, extra: A.Batch, items: seq<Item>, kind: Kind,
                                           ctx: Context, around: seq<A.Around>, b: File, i: nat, n: nat)
    requires UnderWay(p, q, extra, items, kind, ctx, around)
    requires i <= |items| && !A.FlushAmid(q, items[..i], ctx, around).stopped
    requires b in A.First(Drop(around, i)).batch && b.kind == kind
    requires FirstAfter(ItemOf(b, A.First(Drop(around, i)).batch[b]), items[i..], n)
    ensures var arrived, left := A.FlushAmid(q, items[..i], ctx, around), Drop(around, i);
      PassesLater(arrived, items[i..], ctx, left, ItemOf(b, A.First(left).batch[b])) <==>
        SendsAt(arrived, items[i..], ctx, left, n)
  {
    var p', arrived := A.FlushAlone(p, items[..i], ctx, around), A.FlushAmid(q, items[..i], ctx, around);
    var extra' := extra + A.Taken(q, items[..i], ctx, around);
    StaysUnderWay(p, q, extra, items, kind, ctx, around, i);
    NextArrivalIff(p', arrived, extra', items[i..], kind, ctx, Drop(around, i), b, n);
  }

  /** The same for a flush of an ordered disk, from its start. */
  lemma {:induction false} ArrivalIff(disk: Disk, items: seq<Item>, kind: Kind, ctx: Context, around: seq<A.Around>,
                                      b: File, i: nat, n: nat)
    requires Ordered(disk) && Lists(items, disk.files, kind) && Alone(ctx, kind)
    requires KeepsTrack(Start(disk, items), items, ctx, around) && A.AllNew(Start(disk, items), items, ctx, around)
    requires i <= |items| && !A.FlushAmid(Start(disk, items), items[..i], ctx, around).stopped
    requires b in A.First(Drop(around, i)).batch && b.kind == kind
    requires FirstAfter(ItemOf(b, A.First(Drop(around, i)).batch[b]), items[i..], n)
    ensures var arrived, left := A.FlushAmid(Start(disk, items), items[..i], ctx, around), Drop(around, i);
      PassesLater(arrived, items[i..], ctx, left, ItemOf(b, A.First(left).batch[b])) <==>
        SendsAt(arrived, items[i..], ctx, left, n)
  {
    StartsUnderWay(disk, items, kind, ctx, around);
    LaterArrivalIff(Start(disk, items), Start(disk, items), map[], items, kind, ctx, around, b, i, n);
  }

  /**
    A file that arrives during a flush of an ordered disk, before its i-th turn, is overtaken by what it sends
    from then on exactly when the first item from the i-th on, of its lane and after it, is sent.
   */
  lemma {:induction false} MidFlushArrivalIff(disk: Disk, items: seq<Item>, kind: Kind, ctx: Context,
                                              around: seq<A.Around>, b: File, i: nat, n: nat)
    requires Ordered(disk) && Lists(items, disk.files, kind) && Alone(ctx, kind)
    requires !PausesAll(disk.auth, ctx.credential)
    requires KeepsTrack(Start(disk, items), items, ctx, around) && A.AllNew(Start(disk, items), items, ctx, around)
    requires i <= |items| && !A.FlushAmid(Start(disk, items), items[..i], ctx, around).stopped
    requires b in A.First(Drop(around, i)).batch && b.kind == kind
    requires FirstAfter(ItemOf(b, A.First(Drop(around, i)).batch[b]), items[i..], n)
    ensures var item, start := ItemOf(b, A.First(Drop(around, i)).batch[b]), Start(disk, items);
      var arrived, end := A.FlushAmid(start, items[..i], ctx, around), A.FlushDuring(disk, items, ctx, around);
      (exists k :: |arrived.sends| <= k < |end.sends| && Overtakes(end.sends[k], item)) <==>
        SendsAt(start, items, ctx, around, i + n)
  {
    ArrivalIff(disk, items, kind, ctx, around, b, i, n);
    AmidSplits(Start(disk, items), items, i, ctx, around);
    PartsJoin(Start(disk, items), items, ctx, around, i, n);
  }

  lemma PartsJoin(start: Progress, items: seq<Item>, ctx: Context, around: seq<A.Around>, i: nat, n: nat)
    requires i + n < |items|
    ensures var arrived := A.FlushAmid(start, items[..i], ctx, around);
      SendsAt(arrived, items[i..], ctx, Drop(around, i), n) <==> SendsAt(start, items, ctx, around, i + n)
  {
    assert items[..i + n][..i] == items[..i] && items[..i + n][i..] == items[i..][..n];
    AmidSplits(start, items[..i + n], i, ctx, around);
    DropTwice(around, i, n);
  }

  // ---------------------------------------------------------------- it happens

  /** Two fresh envelopes of one lane, listed by a flush that will deliver both. */
  predicate TwoFresh(a: File, ca: Content, c: File, cc: Content, ctx: Context) {
    && a.kind == c.kind && a != c && LaneOf(ca) == LaneOf(cc) && Before(ItemOf(a, ca), ItemOf(c, cc))
    && ca.Envelope? && ca.time.Text? && cc.Envelope? && cc.time.Text?
    && ctx.predecessors == [] && ctx.busy == {} && !TurnOf(ctx, a).late && !TurnOf(ctx, c).late
    && Verdict(ca, TurnOf(ctx, a).response).None?
  }

  function Between(b: File, cb: Content): seq<A.Around> {
    [A.Around(map[], M.Safe), A.Around(map[b := cb], M.Safe)]
  }

  function Two(a: File, ca: Content, c: File, cc: Content): Disk {
    EMPTY.(files := map[a := ca, c := cc])
  }

  /**
    Between two envelopes of a flush a third is queued that sorts between them: it is new and in time, and
    the flush sends the last one past it.
   */
  lemma MidFlushOvertakes(a: File, ca: Content, b: File, cb: Content, c: File, cc: Content, ctx: Context)
    requires TwoFresh(a, ca, c, cc, ctx) && b !in {a, c} && b.kind == c.kind && LaneOf(cb) == LaneOf(cc)
    requires Before(ItemOf(a, ca), ItemOf(b, cb)) && Before(ItemOf(b, cb), ItemOf(c, cc))
    ensures var disk, items := Two(a, ca, c, cc), [ItemOf(a, ca), ItemOf(c, cc)];
      var left := FlushItem(Start(disk, items), items[0], ctx).disk;
      && Ordered(disk) && Lists(items, disk.files, a.kind) && A.AllNew(Start(disk, items), items, ctx, Between(b, cb))
      && Ordered(left) && InTime(left, b, cb)
      && exists send ::
           send in A.FlushDuring(disk, items, ctx, Between(b, cb)).sends && Overtakes(send, ItemOf(b, cb))
  {
    var disk, items := Two(a, ca, c, cc), [ItemOf(a, ca), ItemOf(c, cc)];
    FreshIsListed(a, ca, c, cc, ctx);
    FreshDelivered(Start(disk, items), a, ca, c, cc, ctx);
    var p := FlushItem(Start(disk, items), items[0], ctx);
    OneLeft(p.disk, b, cb, c, cc);
    SecondFlushed(Start(disk, items), b, cb, items, ctx);
    SecondSent(p, b, cb, c, cc, ctx);
    BeforeTotal(ItemOf(b, cb), items[1]);
    var send := (items[1], A.Add(p.disk, map[b := cb]));
    assert send in A.FlushDuring(disk, items, ctx, Between(b, cb)).sends;
  }

  lemma OneLeft(disk: Disk, b: File, cb: Content, c: File, cc: Content)
    requires disk == EMPTY.(files := map[c := cc])
    ensures Ordered(disk) && InTime(disk, b, cb)
  {
  }

  lemma FreshIsListed(a: File, ca: Content, c: File, cc: Content, ctx: Context)
    requires TwoFresh(a, ca, c, cc, ctx)
    ensures var disk, items := Two(a, ca, c, cc), [ItemOf(a, ca), ItemOf(c, cc)];
      Ordered(disk) && Lists(items, disk.files, a.kind)
  {
    BeforeTotal(ItemOf(a, ca), ItemOf(c, cc));
  }

  /** The flush, unfolded: the first turn on the disk as it was, the second one on the disk with the new file. */
  lemma SecondFlushed(start: Progress, b: File, cb: Content, items: seq<Item>, ctx: Context)
    requires |items| == 2 && ctx.predecessors == [] && !start.stopped && !FlushItem(start, items[0], ctx).stopped
    requires b !in start.disk.files && b != items[0].file && b != items[1].file
    requires var left := FlushItem(start, items[0], ctx).disk;
      b !in left.files && left.notes == map[] && left.markers == map[]
    ensures var p := FlushItem(start, items[0], ctx);
      && A.AllNew(start, items, ctx, Between(b, cb))
      && A.FlushAmid(start, items, ctx, Between(b, cb))
           == FlushItem(p.(disk := A.Add(p.disk, map[b := cb])), items[1], ctx)
  {
    var p := FlushItem(start, items[0], ctx);
    assert A.Add(start.disk, map[]) == start.disk && items[1..] == [items[1]] && items[1..][1..] == [];
    assert A.Later(Between(b, cb)) == [A.Around(map[b := cb], M.Safe)];
    AmidUnfolds(start, items, ctx, Between(b, cb));
    AmidUnfolds(p, [items[1]], ctx, A.Later(Between(b, cb)));
  }

  lemma SecondSent(p: Progress, b: File, cb: Content, c: File, cc: Content, ctx: Context)
    requires !p.stopped && p.attempts == 1 && p.disk == EMPTY.(files := map[c := cc]) && b != c
    requires cc.Envelope? && cc.time.Text? && ctx.predecessors == [] && ctx.busy == {} && !TurnOf(ctx, c).late
    ensures var q := p.(disk := A.Add(p.disk, map[b := cb]));
      (ItemOf(c, cc), q.disk) in FlushItem(q, ItemOf(c, cc), ctx).sends
  {
    var q := p.(disk := A.Add(p.disk, map[b := cb]));
    TurnSendsIff(q, ItemOf(c, cc), ctx);
    assert Free(q.disk, ItemOf(c, cc), ctx);
    assert FlushItem(q, ItemOf(c, cc), ctx).sends[|q.sends|] == (ItemOf(c, cc), q.disk);
  }

  lemma FreshDelivered(start: Progress, a: File, ca: Content, c: File, cc: Content, ctx: Context)
    requires TwoFresh(a, ca, c, cc, ctx) && start == Start(Two(a, ca, c, cc), [ItemOf(a, ca), ItemOf(c, cc)])
    ensures var p := FlushItem(start, ItemOf(a, ca), ctx);
      !p.stopped && p.attempts == 1 && p.disk == EMPTY.(files := map[c := cc])
  {
    var item := ItemOf(a, ca);
    assert FlushItem(start, item, ctx) == Send(start, item, ctx);
    var after := Remove(WriteAhead(start.disk, item), item);
    assert after.files == map[c := cc] && after.notes == map[] && after.markers == map[];
  }
}
