/**
  The attempt counter of a sidecar is written ahead of the send it counts, so what is on disk is never
  behind what was tried, wherever a worker stops. Each event is in one lane here: two events of the same
  identifier and different sessions would be worked on in two lanes at once.
 */
module DeliveryCounts {
  import opened Retry
  import opened Outbox
  import opened Delivery

  ghost predicate OneLane(w: World) {
    forall e, e' :: e in w.submitted && e' in w.submitted && e.0 == e'.0 ==> LaneOf(e.1) == LaneOf(e'.1)
  }

  function Attempts(w: World, f: File): int {
    SidecarOf(w.disk, f).attempts
  }

  /** Every sidecar on disk, and every one a worker has read, is accepted by the next flush. */
  ghost predicate NotesUsable(w: World) {
    && (forall f :: f in w.disk.notes ==> Usable(w.disk.notes[f]))
    && (forall l :: l in w.workers ==> Valid(w.workers[l].sidecar))
  }

  /** What a worker knows of the counter and of the sends begun. */
  predicate CountOk(w: World, k: Worker) {
    var n := k.sidecar.attempts;
    match k.phase
    case Opened => Attempts(w, k.file) == n
    case Checked => Attempts(w, k.file) == n
    case Counted => Attempts(w, k.file) == n + 1 && Begun(w, k.file) <= n
    case Sent => Attempts(w, k.file) == n + 1
    case Confirmed(_) => Attempts(w, k.file) == n + 1
    case Unpaused(_) => Attempts(w, k.file) == n + 1
    case Removed => Attempts(w, k.file) == n + 1 && Begun(w, k.file) == 0
    case Forgotten => Attempts(w, k.file) == 0 && Begun(w, k.file) == 0
    case Failing(_) => Attempts(w, k.file) <= n + 1
    case _ => true
  }

  ghost predicate Counts(w: World) {
    && NotesUsable(w)
    && (forall f: File :: Begun(w, f) <= Attempts(w, f))
    && (forall l :: l in w.workers ==> CountOk(w, w.workers[l]))
  }

  lemma UsableKeeps(w: World, s: Step)
    requires NotesUsable(w)
    ensures NotesUsable(Next(w, s))
  {
  }

  /** Two workers never work on one envelope. */
  lemma WorkersApart(w: World, l: string, l': string)
    requires Durable(w) && OneLane(w) && l in w.workers && l' in w.workers && l != l'
    ensures w.workers[l].file != w.workers[l'].file
  {
    assert WorkerOk(w, l, w.workers[l]) && WorkerOk(w, l', w.workers[l']);
  }

  /** A step of one worker concerns its own envelope only. */
  ghost predicate OwnFileOnly(w: World, w': World, file: File) {
    forall f: File :: f != file ==> Attempts(w', f) == Attempts(w, f) && Begun(w', f) == Begun(w, f)
  }

  lemma LaneCounts(w: World, w': World, lane: string)
    requires Durable(w) && OneLane(w) && Counts(w) && NotesUsable(w') && lane in w.workers
    requires OneLaneMoves(w, w', lane) && OwnFileOnly(w, w', w.workers[lane].file)
    requires Begun(w', w.workers[lane].file) <= Attempts(w', w.workers[lane].file)
    requires lane in w'.workers ==> CountOk(w', w'.workers[lane])
    ensures Counts(w')
  {
    forall l | l in w'.workers
      ensures CountOk(w', w'.workers[l])
    {
      if l != lane {
        WorkersApart(w, l, lane);
        assert CountOk(w, w.workers[l]);
      }
    }
  }

  lemma WorkerCounts(w: World, s: Step)
    requires Durable(w) && OneLane(w) && Counts(w) && Enabled(w, s) && !s.Submit? && !s.Serve? && !s.Open?
    ensures Counts(Next(w, s))
  {
    UsableKeeps(w, s);
    StaysInLane(w, s);
    StaysWithFile(w, s);
    assert CountOk(w, w.workers[s.lane]);
    if s.Clear? {
      ClearCounts(w, s.lane);
    } else if s.Record? {
      RecordCounts(w, s);
    } else {
      DeliverCounts(w, s);
    }
    LaneCounts(w, Next(w, s), s.lane);
  }

  lemma StaysInLane(w: World, s: Step)
    requires Enabled(w, s) && !s.Submit? && !s.Serve? && !s.Open?
    ensures OneLaneMoves(w, Next(w, s), s.lane)
  {
  }

  lemma StaysWithFile(w: World, s: Step)
    requires Enabled(w, s) && !s.Submit? && !s.Serve? && !s.Open?
    ensures OwnFileOnly(w, Next(w, s), w.workers[s.lane].file)
  {
    forall f: File | f != w.workers[s.lane].file
      ensures Attempts(Next(w, s), f) == Attempts(w, f) && Begun(Next(w, s), f) == Begun(w, f)
    {
      LeavesFile(w, s, f);
    }
  }

  lemma LeavesFile(w: World, s: Step, f: File)
    requires Enabled(w, s) && !s.Submit? && !s.Serve? && !s.Open? && f != w.workers[s.lane].file
    ensures Attempts(Next(w, s), f) == Attempts(w, f) && Begun(Next(w, s), f) == Begun(w, f)
  {
  }

  lemma ClearCounts(w: World, lane: string)
    requires Enabled(w, Clear(lane)) && CountOk(w, w.workers[lane]) && Valid(w.workers[lane].sidecar)
    requires Begun(w, w.workers[lane].file) <= Attempts(w, w.workers[lane].file)
    ensures var w' := Next(w, Clear(lane));
      && Begun(w', w.workers[lane].file) <= Attempts(w', w.workers[lane].file)
      && (lane in w'.workers ==> CountOk(w', w'.workers[lane]))
  {
  }

  lemma RecordCounts(w: World, s: Step)
    requires Enabled(w, s) && s.Record? && CountOk(w, w.workers[s.lane])
    requires Begun(w, w.workers[s.lane].file) <= Attempts(w, w.workers[s.lane].file)
    ensures var w' := Next(w, s);
      && Begun(w', w.workers[s.lane].file) <= Attempts(w', w.workers[s.lane].file)
      && (s.lane in w'.workers ==> CountOk(w', w'.workers[s.lane]))
  {
  }

  lemma DeliverCounts(w: World, s: Step)
    requires Enabled(w, s) && !s.Submit? && !s.Serve? && !s.Open? && !s.Clear? && !s.Record?
    requires CountOk(w, w.workers[s.lane]) && Valid(w.workers[s.lane].sidecar)
    requires Begun(w, w.workers[s.lane].file) <= Attempts(w, w.workers[s.lane].file)
    ensures var w' := Next(w, s);
      && Begun(w', w.workers[s.lane].file) <= Attempts(w', w.workers[s.lane].file)
      && (s.lane in w'.workers ==> CountOk(w', w'.workers[s.lane]))
  {
  }

  lemma StepCounts(w: World, s: Step)
    requires Durable(w) && OneLane(w) && Counts(w)
    ensures Counts(Next(w, s))
  {
    if Enabled(w, s) && !s.Submit? && !s.Serve? && !s.Open? {
      WorkerCounts(w, s);
    } else {
      UsableKeeps(w, s);
      SameCounts(w, s);
      var w' := Next(w, s);
      forall l | l in w'.workers
        ensures CountOk(w', w'.workers[l])
      {
        assert l in w.workers ==> CountOk(w, w.workers[l]);
      }
    }
  }

  lemma SameCounts(w: World, s: Step)
    requires s.Submit? || s.Serve? || s.Open? || !Enabled(w, s)
    ensures var w' := Next(w, s);
      && (forall f: File :: Attempts(w', f) == Attempts(w, f) && Begun(w', f) == Begun(w, f))
      && (forall l :: l in w'.workers ==>
            || (l in w.workers && w'.workers[l] == w.workers[l])
            || (w'.workers[l].phase.Opened? && w'.workers[l].sidecar.attempts == Attempts(w', w'.workers[l].file)))
  {
  }

  lemma SubmittedGrows(w: World, steps: seq<Step>)
    ensures w.submitted <= Run(w, steps).submitted
    decreases |steps|
  {
    if steps != [] {
      assert w.submitted <= Next(w, steps[0]).submitted;
      SubmittedGrows(Next(w, steps[0]), steps[1..]);
    }
  }

  lemma {:induction false} RunCounts(w: World, steps: seq<Step>)
    requires Durable(w) && Counts(w) && OneLane(Run(w, steps))
    ensures Counts(Run(w, steps)) && Durable(Run(w, steps))
    decreases |steps|
  {
    if steps != [] {
      SubmittedGrows(w, steps);
      StepKeeps(w, steps[0]);
      StepCounts(w, steps[0]);
      RunCounts(Next(w, steps[0]), steps[1..]);
    }
  }

  /**
    Write-ahead counting: after any run, cut anywhere, the attempts counted on disk for an envelope are at
    least the sends begun since it was queued, and every sidecar is one the next flush accepts.
   */
  lemma CountedAhead(steps: seq<Step>, f: File)
    requires OneLane(Run(START, steps))
    ensures Begun(Run(START, steps), f) <= Attempts(Run(START, steps), f)
    ensures NotesUsable(Run(START, steps))
  {
    RunCounts(START, steps);
  }

  /**
    And the count never falls, except when a worker that delivered an envelope forgets its sidecar: if the
    same event was queued again in between, its new envelope starts from nothing, and no send of it has begun.
   */
  lemma CountNeverFalls(steps: seq<Step>, s: Step, f: File)
    requires OneLane(Run(START, steps))
    ensures var w := Run(START, steps);
      && (Attempts(Next(w, s), f) < Attempts(w, f) <==>
            s.Clear? && At(w, s.lane, Phase.Removed) && w.workers[s.lane].file == f && Attempts(w, f) > 0)
      && (Attempts(Next(w, s), f) < Attempts(w, f) ==> Begun(w, f) == 0)
  {
    var w := Run(START, steps);
    RunCounts(START, steps);
    FallsOnlyWhenForgotten(w, s, f);
  }

  lemma FallsOnlyWhenForgotten(w: World, s: Step, f: File)
    requires Counts(w)
    ensures Attempts(Next(w, s), f) < Attempts(w, f) <==>
      s.Clear? && At(w, s.lane, Phase.Removed) && w.workers[s.lane].file == f && Attempts(w, f) > 0
    ensures s.Clear? && At(w, s.lane, Phase.Removed) && w.workers[s.lane].file == f ==> Begun(w, f) == 0
  {
    if Enabled(w, s) && !s.Submit? && !s.Serve? && !s.Open? {
      assert CountOk(w, w.workers[s.lane]);
    }
  }
}
