/** Every turn that is cut short, or meets a failing operation, is a run of single operations of one worker. */
module CutRuns {
  import opened Wrappers
  import opened Retry
  import opened Receipts
  import opened Outbox
  import opened Delivery
  import opened DeliveryRuns
  import M = Mishaps
  import LaneLimits
  import L = LaneOrder

  /** The phase of a worker whose delivery has come that far. */
  function PhaseAt(point: M.Point, answer: Response): Phase {
    match point
    case Begun => Opened
    case Ahead => Sent
    case Lifted => Unpaused(answer)
    case Gone => Phase.Removed
    case Forgotten => Phase.Forgotten
  }

  /** A worker can bring the delivery of a queued envelope to any point, the later ones after a valid receipt. */
  lemma PointReached(w: World, f: File, credential: string, answer: Response, point: M.Point)
    requires Ready(w, f) && (HasStored(w, f) ==> (f, w.disk.files[f]) in w.stored)
    requires point.Begun? || point.Ahead? || Verdict(w.disk.files[f], answer).None?
    ensures var c := w.disk.files[f];
      exists w': World ::
        && w'.disk == M.DiskAt(w.disk, ItemOf(f, c), point) && w'.workers == w.workers
        && Reaches(w, With(w', Worker(f, c, SidecarOf(w.disk, f), credential, PhaseAt(point, answer))))
  {
    var c := w.disk.files[f];
    var k, lane := Worker(f, c, SidecarOf(w.disk, f), credential, Opened), LaneOf(c);
    if point.Begun? {
      Here(w);
      Extend(w, w, Open(f, c, credential));
      assert Next(w, Open(f, c, credential)) == With(w, k);
    } else {
      ToSend(w, f, credential);
      if !point.Ahead? {
        var sending := Sending(w.(disk := WriteAhead(w.disk, ItemOf(f, c))), f, c);
        ToLifted(w, sending, k.(phase := Sent), answer);
        var lifted: World :| lifted.disk == sending.disk.(auth := NoAuth) && lifted.workers == w.workers
          && Reaches(w, With(lifted, k.(phase := Unpaused(answer))));
        if !point.Lifted? {
          ToGone(w, lifted, k.(phase := Unpaused(answer)), point);
        }
      }
    }
  }

  lemma ToLifted(from: World, sending: World, k: Worker, answer: Response)
    requires k.phase == Sent && Reaches(from, With(sending, k)) && (k.file, k.listed) in sending.wire
    requires (HasStored(sending, k.file) ==> (k.file, k.listed) in sending.stored) && Verdict(k.listed, answer).None?
    ensures exists lifted: World ::
      && lifted.disk == sending.disk.(auth := NoAuth) && lifted.workers == sending.workers
      && Reaches(from, With(lifted, k.(phase := Unpaused(answer))))
  {
    var lane := LaneOf(k.listed);
    ServeStores(With(sending, k), k.file, k.listed);
    Extend(from, With(sending, k), Serve(k.file, k.listed));
    var served := sending.(stored := Next(With(sending, k), Serve(k.file, k.listed)).stored);
    assert Next(With(sending, k), Serve(k.file, k.listed)) == With(served, k);
    ReceiveTakes(served, k, answer);
    Extend(from, With(served, k), Receive(lane, answer));
    var confirmed := k.(phase := Confirmed(answer));
    Extend(from, With(served, confirmed), Clear(lane));
    var lifted := served.(disk := served.disk.(auth := NoAuth));
    assert Next(With(served, confirmed), Clear(lane)) == With(lifted, k.(phase := Unpaused(answer)));
  }

  lemma ToGone(from: World, lifted: World, k: Worker, point: M.Point)
    requires k.phase.Unpaused? && Reaches(from, With(lifted, k)) && (point.Gone? || point.Forgotten?)
    ensures exists w': World ::
      && w'.disk == lifted.disk.(files := lifted.disk.files - {k.file},
                                 notes := if point.Gone? then lifted.disk.notes else lifted.disk.notes - {k.file})
      && w'.workers == lifted.workers && Reaches(from, With(w', k.(phase := PhaseAt(point, k.phase.answer))))
  {
    var lane := LaneOf(k.listed);
    RemoveTakes(lifted, k);
    Extend(from, With(lifted, k), Clear(lane));
    var gone := lifted.(disk := lifted.disk.(files := lifted.disk.files - {k.file}), begun := lifted.begun - {k.file});
    if point.Forgotten? {
      ForgetTakes(gone, k.(phase := Phase.Removed));
      Extend(from, With(gone, k.(phase := Phase.Removed)), Clear(lane));
    }
  }

  /** A failure there is recorded step by step, and the worker may die after each. */
  lemma RecordReached(from: World, w: World, k: Worker, failure: Failure, now: real, rng: real, written: nat)
    requires Reaches(from, With(w, k)) && !Recording(k.phase)
    requires k.sidecar.attempts >= 0 && LaneOf(k.listed) !in w.workers
    requires written <= 2
    ensures var next := RetryState(failure, k.sidecar, now, rng, k.credential).(hash := Some(k.listed));
      var noted := WithNote(w.disk, k.file, next);
      exists w': World ::
        && w'.workers == w.workers && Reaches(from, w')
        && w'.disk == if written == 0 then w.disk else if written == 1 then noted
                      else WithMarker(noted, LaneOf(k.listed), Marker(k.file, next.state))
  {
    var lane := LaneOf(k.listed);
    var next := RetryState(failure, k.sidecar, now, rng, k.credential).(hash := Some(k.listed));
    var failing := k.(phase := Failing(failure));
    if written == 0 {
      Left(from, w, k);
    } else {
      Extend(from, With(w, k), Break(lane, failure));
      assert Next(With(w, k), Break(lane, failure)) == With(w, failing);
      var w1, k1 := w.(disk := WithNote(w.disk, k.file, next)), k.(phase := Noted(next.state));
      Extend(from, With(w, failing), Record(lane, now, rng));
      assert Next(With(w, failing), Record(lane, now, rng)) == With(w1, k1);
      if written == 1 {
        Left(from, w1, k1);
      } else {
        MarkTakes(w1, k1, now, rng);
        Extend(from, With(w1, k1), Record(lane, now, rng));
        Left(from, w1.(disk := WithMarker(w1.disk, lane, Marker(k.file, next.state))), k.(phase := Marked(next.state)));
      }
    }
  }

  lemma Left(from: World, w: World, k: Worker)
    requires Reaches(from, With(w, k)) && LaneOf(k.listed) !in w.workers
    ensures Reaches(from, w)
  {
    Extend(from, With(w, k), Leave(LaneOf(k.listed)));
    assert With(w, k).workers - {LaneOf(k.listed)} == w.workers;
    assert Next(With(w, k), Leave(LaneOf(k.listed))) == w;
  }

  /**
    What a turn that is cut short leaves on disk, wherever it is cut, is left by a run of one worker's single
    operations; so is what a failing operation leaves.
   */
  lemma MishapIsRun(w: World, p: Progress, f: File, ctx: Context, mishap: M.Mishap)
    requires p.disk == w.disk && Ready(w, f) && (HasStored(w, f) ==> (f, w.disk.files[f]) in w.stored)
    requires M.Possible(p, ItemOf(f, w.disk.files[f]), ctx, mishap)
    ensures exists w': World ::
      && Reaches(w, w') && w'.workers == w.workers
      && w'.disk == M.TurnWith(p, ItemOf(f, w.disk.files[f]), ctx, mishap).disk
  {
    var c, turn, answer := w.disk.files[f], TurnOf(ctx, f), TurnOf(ctx, f).response;
    var item, failure := ItemOf(f, c), M.Trouble(p, ItemOf(f, c), ctx, mishap);
    PointReached(w, f, ctx.credential, answer, mishap.point);
    var k := Worker(f, c, SidecarOf(w.disk, f), ctx.credential, PhaseAt(mishap.point, answer));
    var at: World :|
      at.disk == M.DiskAt(w.disk, item, mishap.point) && at.workers == w.workers && Reaches(w, With(at, k));
    RecordReached(w, at, k, failure, turn.failedAt, turn.rng,
                  if mishap.Dies? then 0 else if mishap.DiesUnmarked? then 1 else 2);
    TurnLeaves(p, item, ctx, mishap);
  }

  lemma TurnLeaves(p: Progress, item: Item, ctx: Context, mishap: M.Mishap)
    requires M.Possible(p, item, ctx, mishap)
    ensures var at := M.DiskAt(p.disk, item, mishap.point);
      var next := M.Scheduled(p, item, ctx, M.Trouble(p, item, ctx, mishap));
      M.TurnWith(p, item, ctx, mishap).disk ==
        if mishap.Dies? then at else if mishap.DiesUnmarked? then WithNote(at, item.file, next)
        else WithMarker(WithNote(at, item.file, next), item.lane, Marker(item.file, next.state))
  {
    assert Classify(M.BROKEN) == RetryWait;
  }

  /**
    A clean-up that fails after the envelope is removed closes the lane even if nothing had failed before: the
    worker records the failure of an envelope that is gone.
   */
  lemma FailedCleanUpCloses(f: File, c: Content, ctx: Context)
    requires c.Envelope? && c.eventId == f.id && c.time.Text? && Verdict(c, TurnOf(ctx, f).response).None?
    requires ctx.predecessors == [] && ctx.busy == {} && !TurnOf(ctx, f).late
    ensures exists w: World ::
      Reaches(START, w) && w.workers == map[] && w.disk.files == map[] && LaneLimits.Closed(w.disk, LaneOf(c))
  {
    var w := START.(disk := START.disk.(files := map[f := c]), submitted := {(f, c)});
    var item, mishap := ItemOf(f, c), M.Fails(M.Gone);
    var p := Start(w.disk, [item]);
    Here(START);
    Extend(START, START, Submit(f, c));
    assert Next(START, Submit(f, c)) == w;
    OnlyOneReady(w.disk, f, c);
    MishapIsRun(w, p, f, ctx, mishap);
    var w': World :| Reaches(w, w') && w'.workers == w.workers && w'.disk == M.TurnWith(p, item, ctx, mishap).disk;
    Join(START, w, w');
    LaneLimits.CutShortCloses(p, item, ctx, mishap);
    TurnLeaves(p, item, ctx, mishap);
    assert w'.disk.files == map[];
  }

  lemma OnlyOneReady(disk: Disk, f: File, c: Content)
    requires disk == L.EMPTY.(files := map[f := c]) && c.Envelope?
    ensures L.Ready(disk, ItemOf(f, c))
  {
    BeforeTotal(ItemOf(f, c), ItemOf(f, c));
  }
}
