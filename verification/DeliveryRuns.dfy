/** Runs of single operations that make up a whole delivery of a flush, and one that shows a limit. */
module DeliveryRuns {
  import opened Wrappers
  import opened Retry
  import opened Receipts
  import opened Outbox
  import opened Delivery
  import opened DeliveryCounts

  ghost predicate Reaches(w: World, w': World) {
    exists steps :: Run(w, steps) == w'
  }

  lemma {:induction false} RunAppends(w: World, steps: seq<Step>, s: Step)
    ensures Run(w, steps + [s]) == Next(Run(w, steps), s)
    decreases |steps|
  {
    if steps == [] {
      assert steps + [s] == [s] && [s][1..] == [];
    } else {
      assert (steps + [s])[1..] == steps[1..] + [s];
      RunAppends(Next(w, steps[0]), steps[1..], s);
    }
  }

  lemma Extend(w: World, w': World, s: Step)
    requires Reaches(w, w')
    ensures Reaches(w, Next(w', s))
  {
    var steps :| Run(w, steps) == w';
    RunAppends(w, steps, s);
  }

  lemma Here(w: World)
    ensures Reaches(w, w)
  {
    assert Run(w, []) == w;
  }

  /** The world with this worker in its lane. */
  function With(w: World, k: Worker): World {
    w.(workers := w.workers[LaneOf(k.listed) := k])
  }

  /** A lane is free, and the queued envelope can be sent. */
  predicate Ready(w: World, f: File) {
    && f in w.disk.files && (f, w.disk.files[f]) in w.submitted && w.disk.files[f].Envelope?
    && LaneOf(w.disk.files[f]) !in w.workers
    && SidecarOf(w.disk, f).hash in {None, Some(w.disk.files[f])}
  }

  lemma CheckTakes(w: World, k: Worker)
    requires k.phase == Opened && k.file in w.disk.files && w.disk.files[k.file] == k.listed
    requires k.sidecar.hash in {None, Some(k.listed)}
    ensures Next(With(w, k), Check(LaneOf(k.listed))) == With(w, k.(phase := Checked))
  {
  }

  lemma CountTakes(w: World, k: Worker)
    requires k.phase == Checked && k.listed.Envelope? && k.sidecar == SidecarOf(w.disk, k.file)
    ensures Next(With(w, k), Count(LaneOf(k.listed))) ==
      With(w.(disk := WriteAhead(w.disk, ItemOf(k.file, k.listed))), k.(phase := Counted))
  {
  }

  /** The request is on the wire, and counted as begun. */
  function Sending(w: World, f: File, c: Content): World {
    w.(wire := w.wire + {(f, c)}, begun := w.begun[f := Begun(w, f) + 1])
  }

  /** Up to the send. */
  lemma ToSend(w: World, f: File, credential: string)
    requires Ready(w, f)
    ensures var c := w.disk.files[f];
      var ahead := w.(disk := WriteAhead(w.disk, ItemOf(f, c)));
      Reaches(w, With(Sending(ahead, f, c), Worker(f, c, SidecarOf(w.disk, f), credential, Sent)))
  {
    var c := w.disk.files[f];
    var k := Worker(f, c, SidecarOf(w.disk, f), credential, Opened);
    var ahead := w.(disk := WriteAhead(w.disk, ItemOf(f, c)));
    Here(w);
    Extend(w, w, Open(f, c, credential));
    CheckTakes(w, k);
    Extend(w, With(w, k), Check(LaneOf(c)));
    CountTakes(w, k.(phase := Checked));
    Extend(w, With(w, k.(phase := Checked)), Count(LaneOf(c)));
    TransmitTakes(ahead, k.(phase := Counted));
    Extend(w, With(ahead, k.(phase := Counted)), Transmit(LaneOf(c)));
  }

  lemma TransmitTakes(w: World, k: Worker)
    requires k.phase == Counted
    ensures Next(With(w, k), Transmit(LaneOf(k.listed))) == With(Sending(w, k.file, k.listed), k.(phase := Sent))
  {
  }

  /** The clean-up after a receipt. */
  lemma ToEnd(from: World, w: World, k: Worker)
    requires k.phase.Confirmed? && LaneOf(k.listed) !in w.workers && Reaches(from, With(w, k))
    ensures Reaches(from, w.(
      disk := Disk(w.disk.files - {k.file}, w.disk.notes - {k.file}, w.disk.markers - {LaneOf(k.listed)}, NoAuth),
      begun := w.begun - {k.file}))
  {
    var lane, step := LaneOf(k.listed), Clear(LaneOf(k.listed));
    var w1 := w.(disk := w.disk.(auth := NoAuth));
    var k1 := k.(phase := Unpaused(k.phase.answer));
    assert Next(With(w, k), step) == With(w1, k1);
    Extend(from, With(w, k), step);
    var w2 := w1.(disk := w1.disk.(files := w1.disk.files - {k.file}), begun := w1.begun - {k.file});
    RemoveTakes(w1, k1);
    Extend(from, With(w1, k1), step);
    var w3 := w2.(disk := w2.disk.(notes := w2.disk.notes - {k.file}));
    ForgetTakes(w2, k.(phase := Phase.Removed));
    Extend(from, With(w2, k.(phase := Phase.Removed)), step);
    ExitTakes(w3, k.(phase := Forgotten));
    Extend(from, With(w3, k.(phase := Forgotten)), step);
  }

  lemma RemoveTakes(w: World, k: Worker)
    requires k.phase.Unpaused?
    ensures Next(With(w, k), Clear(LaneOf(k.listed))) ==
      With(w.(disk := w.disk.(files := w.disk.files - {k.file}), begun := w.begun - {k.file}),
           k.(phase := Phase.Removed))
  {
  }

  lemma ForgetTakes(w: World, k: Worker)
    requires k.phase.Removed?
    ensures Next(With(w, k), Clear(LaneOf(k.listed))) ==
      With(w.(disk := w.disk.(notes := w.disk.notes - {k.file})), k.(phase := Forgotten))
  {
  }

  lemma ExitTakes(w: World, k: Worker)
    requires k.phase.Forgotten? && LaneOf(k.listed) !in w.workers
    ensures Next(With(w, k), Clear(LaneOf(k.listed)))
      == w.(disk := w.disk.(markers := w.disk.markers - {LaneOf(k.listed)}))
  {
    assert With(w, k).workers - {LaneOf(k.listed)} == w.workers;
  }

  /** The schedule, the marker and perhaps the pause after a failure. */
  lemma ToRecorded(from: World, w: World, k: Worker, now: real, rng: real)
    requires k.phase.Failing? && k.sidecar.attempts >= 0 && LaneOf(k.listed) !in w.workers && Reaches(from, With(w, k))
    ensures var next := RetryState(k.phase.failure, k.sidecar, now, rng, k.credential).(hash := Some(k.listed));
      var noted := WithMarker(WithNote(w.disk, k.file, next), LaneOf(k.listed), Marker(k.file, next.state));
      Reaches(from, w.(disk := if next.state == PausedAuth then noted.(auth := Paused(k.credential)) else noted))
  {
    var lane, step := LaneOf(k.listed), Record(LaneOf(k.listed), now, rng);
    var next := RetryState(k.phase.failure, k.sidecar, now, rng, k.credential).(hash := Some(k.listed));
    var w1, k1 := w.(disk := WithNote(w.disk, k.file, next)), k.(phase := Noted(next.state));
    assert Next(With(w, k), step) == With(w1, k1);
    Extend(from, With(w, k), step);
    var w2, k2 := w1.(disk := WithMarker(w1.disk, lane, Marker(k.file, next.state))), k.(phase := Marked(next.state));
    MarkTakes(w1, k1, now, rng);
    Extend(from, With(w1, k1), step);
    PauseTakes(w2, k2, now, rng);
    Extend(from, With(w2, k2), step);
  }

  lemma MarkTakes(w: World, k: Worker, now: real, rng: real)
    requires k.phase.Noted?
    ensures Next(With(w, k), Record(LaneOf(k.listed), now, rng)) ==
      With(w.(disk := WithMarker(w.disk, LaneOf(k.listed), Marker(k.file, k.phase.next))),
           k.(phase := Marked(k.phase.next)))
  {
  }

  lemma PauseTakes(w: World, k: Worker, now: real, rng: real)
    requires k.phase.Marked? && LaneOf(k.listed) !in w.workers
    ensures Next(With(w, k), Record(LaneOf(k.listed), now, rng)) ==
      if k.phase.next == PausedAuth then w.(disk := w.disk.(auth := Paused(k.credential))) else w
  {
    assert With(w, k).workers - {LaneOf(k.listed)} == w.workers;
  }

  /** The server has the event once it is served, unless it holds another content under its identifier. */
  lemma ServeStores(w: World, f: File, c: Content)
    requires (f, c) in w.wire && (HasStored(w, f) ==> (f, c) in w.stored)
    ensures Next(w, Serve(f, c)) == w.(stored := Next(w, Serve(f, c)).stored) && (f, c) in Next(w, Serve(f, c)).stored
  {
  }

  /**
    The send of a flush, as one piece, is a run of single operations: count, send, and either clear up or
    record the failure. So what holds after every run holds of flushes too.
   */
  lemma SendIsRun(w: World, p: Progress, f: File, ctx: Context)
    requires p.disk == w.disk && Ready(w, f) && SidecarOf(w.disk, f).attempts >= 0
    requires HasStored(w, f) ==> (f, w.disk.files[f]) in w.stored
    ensures exists w' ::
      Reaches(w, w') && w'.disk == Send(p, ItemOf(f, w.disk.files[f]), ctx).disk && w'.workers == w.workers
  {
    var c, turn := w.disk.files[f], TurnOf(ctx, f);
    var item, lane := ItemOf(f, c), LaneOf(c);
    var k := Worker(f, c, SidecarOf(w.disk, f), ctx.credential, Sent);
    var sending := Sending(w.(disk := WriteAhead(w.disk, item)), f, c);
    ToSend(w, f, ctx.credential);
    ServeStores(With(sending, k), f, c);
    Extend(w, With(sending, k), Serve(f, c));
    var served := sending.(stored := Next(With(sending, k), Serve(f, c)).stored);
    Extend(w, With(served, k), Receive(lane, turn.response));
    ReceiveTakes(served, k, turn.response);
    var verdict := Verdict(c, turn.response);
    if verdict.None? {
      ToEnd(w, served, k.(phase := Confirmed(turn.response)));
    } else {
      ToRecorded(w, served, k.(phase := Failing(verdict.value)), turn.failedAt, turn.rng);
    }
  }

  lemma ReceiveTakes(w: World, k: Worker, response: Response)
    requires k.phase == Sent && (k.file, k.listed) in w.stored
    ensures var verdict := Verdict(k.listed, response);
      Next(With(w, k), Receive(LaneOf(k.listed), response)) ==
        With(w, k.(phase := if verdict.None? then Confirmed(response) else Failing(verdict.value)))
  {
  }

  // ---------------------------------------------------------------- one identifier in two lanes

  lemma {:induction false} RunJoins(w: World, steps: seq<Step>, more: seq<Step>)
    ensures Run(w, steps + more) == Run(Run(w, steps), more)
    decreases |steps|
  {
    if steps == [] {
      assert steps + more == more;
    } else {
      assert (steps + more)[1..] == steps[1..] + more;
      RunJoins(Next(w, steps[0]), steps[1..], more);
    }
  }

  lemma Join(w: World, w': World, w'': World)
    requires Reaches(w, w') && Reaches(w', w'')
    ensures Reaches(w, w'')
  {
    var steps :| Run(w, steps) == w';
    var more :| Run(w', more) == w'';
    RunJoins(w, steps, more);
  }

  /** After one event was delivered. */
  function Delivered(f: File, c: Content): World {
    World(Disk(map[], map[], map[], NoAuth), map[], {(f, c)}, {(f, c)}, [(f, c)], map[])
  }

  lemma DeliveredReached(f: File, c: Content, answer: Response)
    requires c.Envelope? && c.eventId == f.id && Verdict(c, answer).None?
    ensures Reaches(START, Delivered(f, c))
  {
    var w := START.(disk := START.disk.(files := map[f := c]), submitted := {(f, c)});
    Here(START);
    Extend(START, START, Submit(f, c));
    assert Next(START, Submit(f, c)) == w;
    ToSend(w, f, "");
    var k := Worker(f, c, FreshSidecar(), "", Sent);
    var sending := Sending(w.(disk := WriteAhead(w.disk, ItemOf(f, c))), f, c);
    Join(START, w, With(sending, k));
    Extend(START, With(sending, k), Serve(f, c));
    var served := sending.(stored := [(f, c)]);
    assert Next(With(sending, k), Serve(f, c)) == With(served, k);
    ReceiveTakes(served, k, answer);
    Extend(START, With(served, k), Receive(LaneOf(c), answer));
    ToEnd(START, served, k.(phase := Confirmed(answer)));
    assert Disk(served.disk.files - {f}, served.disk.notes - {f}, served.disk.markers - {LaneOf(c)}, NoAuth)
      == START.disk;
    assert served.begun - {f} == map[];
  }

  /**
    A second event of that identifier, sent and abandoned as often as given, while a worker holds the first
    listing.
   */
  function Resent(f: File, c: Content, c': Content, n: nat): World {
    World(Disk(map[f := c'], if n == 0 then map[] else map[f := Note(Counting(c', n))], map[], NoAuth),
          map[LaneOf(c) := Worker(f, c, FreshSidecar(), "", Opened)],
          {(f, c), (f, c')}, if n == 0 then {(f, c)} else {(f, c), (f, c')}, [(f, c)],
          if n == 0 then map[] else map[f := n])
  }

  function Counting(c: Content, n: nat): Sidecar<Content> {
    FreshSidecar().(attempts := n, hash := Some(c))
  }

  lemma {:induction false} ResentReached(f: File, c: Content, c': Content, answer: Response, n: nat)
    requires c.Envelope? && c'.Envelope? && c.eventId == c'.eventId == f.id && LaneOf(c) != LaneOf(c')
    requires Verdict(c, answer).None?
    ensures Reaches(START, Resent(f, c, c', n))
  {
    if n == 0 {
      DeliveredReached(f, c, answer);
      var w := Delivered(f, c);
      Extend(START, w, Submit(f, c'));
      var w' := w.(disk := w.disk.(files := map[f := c']), submitted := {(f, c), (f, c')});
      assert Next(w, Submit(f, c')) == w';
      Extend(START, w', Open(f, c, ""));
      assert Next(w', Open(f, c, "")) == Resent(f, c, c', 0);
    } else {
      ResentReached(f, c, c', answer, n - 1);
      ResentOnce(f, c, c', n);
      Join(START, Resent(f, c, c', n - 1), Resent(f, c, c', n));
    }
  }

  lemma ResentOnce(f: File, c: Content, c': Content, n: nat)
    requires c'.Envelope? && LaneOf(c) != LaneOf(c') && n >= 1
    ensures Reaches(Resent(f, c, c', n - 1), Resent(f, c, c', n))
  {
    var w, w' := Resent(f, c, c', n - 1), Resent(f, c, c', n);
    ToSend(w, f, "");
    var k := Worker(f, c', SidecarOf(w.disk, f), "", Sent);
    var sent := With(Sending(w.(disk := WriteAhead(w.disk, ItemOf(f, c'))), f, c'), k);
    Extend(w, sent, Leave(LaneOf(c')));
    assert sent.workers - {LaneOf(c')} == w'.workers;
    assert Next(sent, Leave(LaneOf(c'))) == w';
  }

  /**
    When an identifier is used again for an event of another session, two lanes work on its one sidecar, and
    the count can fall behind the sends by any number: the failure of a worker with the old listing writes 1.
   */
  lemma CountLostAcrossLanes(f: File, c: Content, c': Content, answer: Response, n: nat)
    requires c.Envelope? && c'.Envelope? && c.eventId == c'.eventId == f.id && LaneOf(c) != LaneOf(c')
    requires Verdict(c, answer).None? && n >= 1
    ensures exists steps ::
      && f in Run(START, steps).disk.files && Run(START, steps).submitted == {(f, c), (f, c')}
      && Begun(Run(START, steps), f) == n && Attempts(Run(START, steps), f) == 1
  {
    ResentReached(f, c, c', answer, n);
    var w, lane := Resent(f, c, c', n), LaneOf(c);
    var broken := Next(w, Break(lane, Failure(NetworkError, None, NoTime)));
    Extend(START, w, Break(lane, Failure(NetworkError, None, NoTime)));
    Extend(START, broken, Record(lane, 0.0, 0.0));
    StaleRecord(f, c, c', n);
  }

  lemma StaleRecord(f: File, c: Content, c': Content, n: nat)
    requires LaneOf(c) != LaneOf(c') && n >= 1
    ensures var w := Resent(f, c, c', n);
      var w' := Next(Next(w, Break(LaneOf(c), Failure(NetworkError, None, NoTime))), Record(LaneOf(c), 0.0, 0.0));
      && f in w'.disk.files && w'.submitted == {(f, c), (f, c')} && Begun(w', f) == n && Attempts(w', f) == 1
  {
  }

  /** No run that accepts only these events from callers lets the count fall behind. */
  ghost predicate CountsHold(events: set<(File, Content)>) {
    forall steps, f: File :: Run(START, steps).submitted <= events ==>
      Begun(Run(START, steps), f) <= Attempts(Run(START, steps), f)
  }

  /**
    Write-ahead counting, exactly: whatever happens, the counts on disk stay ahead of the sends if and only
    if the events that callers may submit use each identifier in one lane.
   */
  lemma CountedAheadIff(events: set<(File, Content)>)
    requires forall e :: e in events ==>
      e.1.Envelope? && e.1.eventId == e.0.id && (e.1.claim.Some? || e.1.eventId != "")
    ensures CountsHold(events) <==>
      forall e, e' :: e in events && e' in events && e.0 == e'.0 ==> LaneOf(e.1) == LaneOf(e'.1)
  {
    if e, e' :| e in events && e' in events && e.0 == e'.0 && LaneOf(e.1) != LaneOf(e'.1) {
      HonestReceiptConfirms(e.1, false);
      CountLostAcrossLanes(e.0, e.1, e'.1, Answer(HonestReceipt(e.1, false)), 2);
      var steps :|
        && Run(START, steps).submitted == {e, e'}
        && Begun(Run(START, steps), e.0) == 2 && Attempts(Run(START, steps), e.0) == 1;
      assert Run(START, steps).submitted <= events;
    } else {
      forall steps, f: File | Run(START, steps).submitted <= events
        ensures Begun(Run(START, steps), f) <= Attempts(Run(START, steps), f)
      {
        CountedAhead(steps, f);
      }
    }
  }
}
