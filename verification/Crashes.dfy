/**
  Workers that die between two operations: the states they leave are reached, and what the next flush makes
  of them.
 */
module Crashes {
  import opened Wrappers
  import opened Retry
  import opened Receipts
  import opened Outbox
  import opened Delivery
  import opened DeliveryRuns
  import L = LaneOrder
  import LaneLimits
  import O = Overtaking

  predicate Submittable(f: File, c: Content) {
    c.Envelope? && c.eventId == f.id && c.time.Text?
  }

  /** Two queued envelopes, nothing else. */
  function TwoQueued(f: File, c: Content, g: File, d: Content): World {
    START.(disk := START.disk.(files := map[f := c, g := d]), submitted := {(f, c), (g, d)})
  }

  lemma TwoQueuedReached(f: File, c: Content, g: File, d: Content)
    requires Submittable(f, c) && Submittable(g, d) && f != g
    ensures Reaches(START, TwoQueued(f, c, g, d))
  {
    var w := START.(disk := START.disk.(files := map[f := c]), submitted := {(f, c)});
    Here(START);
    Extend(START, START, Submit(f, c));
    assert Next(START, Submit(f, c)) == w;
    Extend(START, w, Submit(g, d));
    assert Next(w, Submit(g, d)) == TwoQueued(f, c, g, d);
  }

  /** The sidecar of a first failure. */
  function FirstFailure(c: Content, failure: Failure, now: real, rng: real, credential: string): Sidecar<Content> {
    RetryState(failure, FreshSidecar(), now, rng, credential).(hash := Some(c))
  }

  /** A worker whose send failed writes the sidecar, and dies before it writes the marker. */
  lemma UnmarkedFailureReached(f: File, c: Content, g: File, d: Content, answer: Response, now: real, rng: real,
                               credential: string)
    requires Submittable(f, c) && Submittable(g, d) && f != g && Verdict(c, answer).Some?
    ensures var next := FirstFailure(c, Verdict(c, answer).value, now, rng, credential);
      exists w ::
        && Reaches(START, w) && w.workers == map[]
        && w.disk == Disk(map[f := c, g := d], map[f := Note(next)], map[], NoAuth)
  {
    var w, lane, failure := TwoQueued(f, c, g, d), LaneOf(c), Verdict(c, answer).value;
    TwoQueuedReached(f, c, g, d);
    ToSend(w, f, credential);
    var k := Worker(f, c, FreshSidecar(), credential, Sent);
    var sending := Sending(w.(disk := WriteAhead(w.disk, ItemOf(f, c))), f, c);
    Join(START, w, With(sending, k));
    Extend(START, With(sending, k), Receive(lane, answer));
    var failing := With(sending, k.(phase := Failing(failure)));
    assert Next(With(sending, k), Receive(lane, answer)) == failing;
    var next := FirstFailure(c, failure, now, rng, credential);
    Extend(START, failing, Record(lane, now, rng));
    var noted := With(sending.(disk := WithNote(sending.disk, f, next)), k.(phase := Noted(next.state)));
    assert Next(failing, Record(lane, now, rng)) == noted;
    Extend(START, noted, Leave(lane));
    var left := Next(noted, Leave(lane));
    assert noted.workers - {lane} == map[];
    assert left.disk.notes == map[f := Note(next)];
  }

  /**
    From there the next flush sends the second envelope of the lane past the first, when the first is held
    back by its retry time or its state: the order is lost.
   */
  lemma UnmarkedFailureIsOvertaken(f: File, c: Content, g: File, d: Content, answer: Response, now: real, rng: real,
                                   credential: string, ctx: Context)
    requires Submittable(f, c) && Submittable(g, d) && f != g && Verdict(c, answer).Some?
    requires f.kind == g.kind && LaneOf(c) == LaneOf(d) && Before(ItemOf(f, c), ItemOf(g, d))
    requires ctx.predecessors == [] && ctx.busy == {} && !TurnOf(ctx, f).late && !TurnOf(ctx, g).late
    requires Held(FirstFailure(c, Verdict(c, answer).value, now, rng, credential), ctx.credential, TurnOf(ctx, f).now)
    ensures var items := [ItemOf(f, c), ItemOf(g, d)];
      exists w ::
        && Reaches(START, w) && w.workers == map[] && !L.Ordered(w.disk) && Lists(items, w.disk.files, f.kind)
        && O.PassedOver(Flush(w.disk, items, ctx).sends, items[0], items[1])
  {
    UnmarkedFailureReached(f, c, g, d, answer, now, rng, credential);
    var next := FirstFailure(c, Verdict(c, answer).value, now, rng, credential);
    var disk := Disk(map[f := c, g := d], map[f := Note(next)], map[], NoAuth);
    var w :| Reaches(START, w) && w.workers == map[] && w.disk == disk;
    PassedOver(disk, f, g, ctx);
  }

  lemma PassedOver(disk: Disk, f: File, g: File, ctx: Context)
    requires disk.files.Keys == {f, g} && f != g && f.kind == g.kind && disk.markers == map[] && disk.auth == NoAuth
    requires disk.files[g].Envelope? && disk.files[g].time.Text? && disk.notes.Keys == {f} && Usable(disk.notes[f])
    requires LaneOf(disk.files[f]) == LaneOf(disk.files[g]) && Before(Entry(disk, f), Entry(disk, g))
    requires ctx.predecessors == [] && ctx.busy == {} && !TurnOf(ctx, f).late && !TurnOf(ctx, g).late
    requires Held(disk.notes[f].sidecar, ctx.credential, TurnOf(ctx, f).now)
    ensures var items := [Entry(disk, f), Entry(disk, g)];
      && !L.Ordered(disk) && Lists(items, disk.files, f.kind)
      && O.PassedOver(Flush(disk, items, ctx).sends, items[0], items[1])
  {
    var items := [Entry(disk, f), Entry(disk, g)];
    assert L.Waits(disk.notes[f]) && !L.NoteOk(disk, f, disk.notes[f]);
    O.UnmarkedIsOvertakenIff(disk, items, f.kind, 0, 1, ctx);
    var start := Start(disk, items);
    assert items[..1] == [items[0]] && [items[0]][1..] == [];
    assert FlushAll(start, [items[0]], ctx) == FlushAll(FlushItem(start, items[0], ctx), [], ctx);
    assert FlushItem(start, items[0], ctx) == Blocked(start, disk);
  }

  // ---------------------------------------------------------------- between the envelope and its marker

  /**
    A worker that delivers an envelope which had failed before, and dies once the envelope is removed,
    leaves its lane closed.
   */
  lemma ClosedLaneReached(f: File, c: Content, refusal: Response, now: real, rng: real, answer: Response)
    requires Submittable(f, c) && Verdict(c, answer).None?
    requires Verdict(c, refusal).Some? && Classify(Verdict(c, refusal).value) == RetryWait
    ensures exists w ::
      Reaches(START, w) && w.workers == map[] && w.disk.files == map[] && LaneLimits.Closed(w.disk, LaneOf(c))
  {
    var w, lane, failure :=
      START.(disk := START.disk.(files := map[f := c]), submitted := {(f, c)}), LaneOf(c), Verdict(c, refusal).value;
    Here(START);
    Extend(START, START, Submit(f, c));
    assert Next(START, Submit(f, c)) == w;
    var failed := FailedWorld(w, f, c, failure, now, rng);
    FailsOnce(w, f, c, refusal, now, rng);
    Join(START, w, failed);
    CutShort(failed, f, c, answer);
    var left :|
      Reaches(failed, left) && left.workers == map[] && left.disk.files == map[] && LaneLimits.Closed(left.disk, lane);
    Join(START, failed, left);
  }

  function FailedWorld(w: World, f: File, c: Content, failure: Failure, now: real, rng: real): World {
    var next := FirstFailure(c, failure, now, rng, "");
    Sending(w.(disk := w.disk.(notes := map[f := Note(next)], markers := map[LaneOf(c) := Marker(f, next.state)])), f,
            c)
  }

  lemma FailsOnce(w: World, f: File, c: Content, refusal: Response, now: real, rng: real)
    requires w == START.(disk := START.disk.(files := map[f := c]), submitted := {(f, c)}) && Submittable(f, c)
    requires Verdict(c, refusal).Some? && Classify(Verdict(c, refusal).value) == RetryWait
    ensures Reaches(w, FailedWorld(w, f, c, Verdict(c, refusal).value, now, rng))
  {
    var lane, failure := LaneOf(c), Verdict(c, refusal).value;
    ToSend(w, f, "");
    var k := Worker(f, c, FreshSidecar(), "", Sent);
    var sending := Sending(w.(disk := WriteAhead(w.disk, ItemOf(f, c))), f, c);
    Extend(w, With(sending, k), Receive(lane, refusal));
    assert Next(With(sending, k), Receive(lane, refusal)) == With(sending, k.(phase := Failing(failure)));
    ToRecorded(w, sending, k.(phase := Failing(failure)), now, rng);
    var next := FirstFailure(c, failure, now, rng, "");
    var noted := WithMarker(WithNote(sending.disk, f, next), lane, Marker(f, next.state));
    assert noted == FailedWorld(w, f, c, failure, now, rng).disk;
  }

  /** A queued envelope is sent, stored and confirmed. */
  function Served(w: World, f: File, c: Content): World {
    Sending(w.(disk := WriteAhead(w.disk, ItemOf(f, c))), f, c).(stored := [(f, c)])
  }

  lemma ToConfirmed(w: World, f: File, c: Content, answer: Response)
    requires Ready(w, f) && w.disk.files[f] == c && w.stored == [] && Verdict(c, answer).None?
    ensures Reaches(w, With(Served(w, f, c), Worker(f, c, SidecarOf(w.disk, f), "", Confirmed(answer))))
  {
    ToSend(w, f, "");
    var k := Worker(f, c, SidecarOf(w.disk, f), "", Sent);
    var sending := Sending(w.(disk := WriteAhead(w.disk, ItemOf(f, c))), f, c);
    Extend(w, With(sending, k), Serve(f, c));
    assert Next(With(sending, k), Serve(f, c)) == With(Served(w, f, c), k);
    ReceiveTakes(Served(w, f, c), k, answer);
    Extend(w, With(Served(w, f, c), k), Receive(LaneOf(c), answer));
  }

  lemma CutShort(w: World, f: File, c: Content, answer: Response)
    requires w.disk.files == map[f := c] && (f, c) in w.submitted && Submittable(f, c) && w.workers == map[]
    requires w.stored == []
    requires SidecarOf(w.disk, f).hash == Some(c) && Verdict(c, answer).None?
    requires LaneOf(c) in w.disk.markers && w.disk.markers[LaneOf(c)].Marker? && w.disk.markers[LaneOf(c)].owner == f
    ensures exists w' ::
      Reaches(w, w') && w'.workers == map[] && w'.disk.files == map[] && LaneLimits.Closed(w'.disk, LaneOf(c))
  {
    var lane, k := LaneOf(c), Worker(f, c, SidecarOf(w.disk, f), "", Unpaused(answer));
    var served, confirmed := Served(w, f, c), k.(phase := Confirmed(answer));
    ToConfirmed(w, f, c, answer);
    Extend(w, With(served, confirmed), Clear(lane));
    var lifted := served.(disk := served.disk.(auth := NoAuth));
    assert Next(With(served, confirmed), Clear(lane)) == With(lifted, k);
    RemoveTakes(lifted, k);
    Extend(w, With(lifted, k), Clear(lane));
    var gone := With(lifted.(disk := lifted.disk.(files := lifted.disk.files - {f}), begun := lifted.begun - {f}),
                     k.(phase := Phase.Removed));
    Extend(w, gone, Leave(lane));
    Dies(gone, lane);
  }

  lemma Dies(w: World, lane: string)
    requires w.workers.Keys == {lane}
    ensures Next(w, Leave(lane)) == w.(workers := map[])
  {
    assert w.workers - {lane} == map[];
  }
}
