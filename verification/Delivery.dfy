/**
  Delivery, one durable operation at a time. Workers of any processes take lanes, count an attempt, send,
  and clear up; requests and answers may be lost, late or repeated, any operation may fail, and any worker
  may die between two of them. The server keeps the first content of an event and confirms no other.
 */
module Delivery {
  import opened Wrappers
  import opened Retry
  import opened Receipts
  import opened Outbox

  datatype Phase =
    | Opened                         // the lane is locked, the sidecar read
    | Checked                        // the envelope is still the one listed
    | Counted                        // the attempt is counted in the sidecar
    | Sent                           // the request is out
    | Confirmed(answer: Response)    // a valid receipt came back
    | Unpaused(answer: Response)     // the authentication pause is lifted
    | Removed                        // the envelope is gone
    | Forgotten                      // its sidecar too
    | Failing(failure: Failure)      // the delivery failed, or an operation did
    | Noted(next: State)             // the schedule is written
    | Marked(next: State)            // the lane marker too

  datatype Worker = Worker(file: File, listed: Content, sidecar: Sidecar<Content>, credential: string, phase: Phase)

  /**
    Ghost history beside the durable state: what was accepted from callers, what was ever put on the wire,
    in which order the server stored events, and how many sends of each queued envelope have begun.
   */
  datatype World = World(
    disk: Disk, workers: map<string, Worker>, submitted: set<(File, Content)>, wire: set<(File, Content)>,
    stored: seq<(File, Content)>, begun: map<File, nat>)

  const START := World(Disk(map[], map[], map[], NoAuth), map[], {}, {}, [], map[])

  datatype Step =
    | Submit(file: File, content: Content)
    | Open(file: File, content: Content, credential: string)
    | Leave(lane: string)
    | Gap(lane: string, code: ErrorCode)
    | Check(lane: string)
    | Count(lane: string)
    | Transmit(lane: string)
    | Serve(file: File, content: Content)
    | Receive(lane: string, response: Response)
    | Clear(lane: string)
    | Break(lane: string, failure: Failure)
    | Record(lane: string, now: real, rng: real)

  function Begun(w: World, f: File): nat {
    if f in w.begun then w.begun[f] else 0
  }

  predicate HasStored(w: World, f: File) {
    exists e :: e in w.stored && e.0 == f
  }

  /** The server confirms an event only with the content it stored. */
  predicate Honest(w: World, f: File, content: Content, response: Response) {
    Verdict(content, response).None? ==> (f, content) in w.stored
  }

  predicate At(w: World, lane: string, phase: Phase) {
    lane in w.workers && w.workers[lane].phase == phase
  }

  predicate Clearing(phase: Phase) {
    phase.Confirmed? || phase.Unpaused? || phase.Removed? || phase.Forgotten?
  }

  predicate Recording(phase: Phase) {
    phase.Failing? || phase.Noted? || phase.Marked?
  }

  predicate Enabled(w: World, s: Step) {
    match s
    case Submit(file, content) => content.Envelope? && content.eventId == file.id
    case Open(file, content, _) =>
      LaneOf(content) !in w.workers && file in w.disk.files && (file, content) in w.submitted
    case Leave(lane) => lane in w.workers
    case Gap(lane, code) => At(w, lane, Opened) && code in {PendingPredecessor, LaneGap}
    case Check(lane) =>
      && At(w, lane, Opened)
      && var k := w.workers[lane];
      && k.file in w.disk.files && w.disk.files[k.file] == k.listed && k.sidecar.hash in {None, Some(k.listed)}
    case Count(lane) => At(w, lane, Checked)
    case Transmit(lane) => At(w, lane, Counted)
    case Serve(file, content) => (file, content) in w.wire
    case Receive(lane, response) =>
      At(w, lane, Sent) && Honest(w, w.workers[lane].file, w.workers[lane].listed, response)
    case Clear(lane) => lane in w.workers && Clearing(w.workers[lane].phase)
    case Break(lane, _) => lane in w.workers && !Recording(w.workers[lane].phase)
    case Record(lane, _, _) => lane in w.workers && Recording(w.workers[lane].phase)
  }

  function Enter(w: World, lane: string, phase: Phase): World
    requires lane in w.workers
  {
    w.(workers := w.workers[lane := w.workers[lane].(phase := phase)])
  }

  function Exit(w: World, lane: string): World {
    w.(workers := w.workers - {lane})
  }

  /** The next operation of the clean-up after a valid receipt. */
  function ClearNext(w: World, lane: string): World
    requires Enabled(w, Clear(lane))
  {
    var k := w.workers[lane];
    match k.phase
    case Confirmed(answer) => Enter(w.(disk := w.disk.(auth := NoAuth)), lane, Unpaused(answer))
    case Unpaused(_) =>
      Enter(w.(disk := w.disk.(files := w.disk.files - {k.file}), begun := w.begun - {k.file}), lane, Phase.Removed)
    case Removed => Enter(w.(disk := w.disk.(notes := w.disk.notes - {k.file})), lane, Forgotten)
    case _ => Exit(w.(disk := w.disk.(markers := w.disk.markers - {lane})), lane)
  }

  /** The next operation after a failure: the sidecar, the marker, and for a refused credential the pause. */
  function RecordNext(w: World, lane: string, now: real, rng: real): World
    requires Enabled(w, Record(lane, now, rng))
  {
    var k := w.workers[lane];
    match k.phase
    case Failing(failure) =>
      if k.sidecar.attempts < 0 then Exit(w, lane)
      else
        var next := RetryState(failure, k.sidecar, now, rng, k.credential).(hash := Some(k.listed));
        Enter(w.(disk := WithNote(w.disk, k.file, next)), lane, Noted(next.state))
    case Noted(next) => Enter(w.(disk := WithMarker(w.disk, lane, Outbox.Marker(k.file, next))), lane, Marked(next))
    case Marked(next) => Exit(if next == PausedAuth then w.(disk := w.disk.(auth := Paused(k.credential))) else w, lane)
  }

  function Apply(w: World, s: Step): World
    requires Enabled(w, s)
  {
    match s
    case Submit(file, content) =>
      if file in w.disk.files && w.disk.files[file] != content then w
      else w.(disk := w.disk.(files := w.disk.files[file := content]), submitted := w.submitted + {(file, content)})
    case Open(file, content, credential) =>
      w.(workers := w.workers[LaneOf(content) := Worker(file, content, SidecarOf(w.disk, file), credential, Opened)])
    case Leave(lane) => Exit(w, lane)
    case Gap(lane, code) =>
      var k := w.workers[lane];
      Exit(w.(disk := WithNote(w.disk, k.file, k.sidecar.(state := BlockedGap, error := Some(code)))), lane)
    case Check(lane) => Enter(w, lane, Checked)
    case Count(lane) =>
      var k := w.workers[lane];
      var ahead := k.sidecar.(state := Pending, attempts := k.sidecar.attempts + 1, hash := Some(k.listed));
      Enter(w.(disk := WithNote(w.disk, k.file, ahead)), lane, Counted)
    case Transmit(lane) =>
      var k := w.workers[lane];
      Enter(w.(wire := w.wire + {(k.file, k.listed)}, begun := w.begun[k.file := Begun(w, k.file) + 1]), lane, Sent)
    case Serve(file, content) => if HasStored(w, file) then w else w.(stored := w.stored + [(file, content)])
    case Receive(lane, response) =>
      var verdict := Verdict(w.workers[lane].listed, response);
      Enter(w, lane, if verdict.None? then Confirmed(response) else Failing(verdict.value))
    case Clear(lane) => ClearNext(w, lane)
    case Break(lane, failure) => Enter(w, lane, Failing(failure))
    case Record(lane, now, rng) => RecordNext(w, lane, now, rng)
  }

  /** A step that cannot be taken changes nothing. */
  function Next(w: World, s: Step): World {
    if Enabled(w, s) then Apply(w, s) else w
  }

  function Run(w: World, steps: seq<Step>): World
    decreases |steps|
  {
    if steps == [] then w else Run(Next(w, steps[0]), steps[1..])
  }

  // ---------------------------------------------------------------- nothing is lost, nothing stored twice

  predicate Holding(phase: Phase) {
    phase.Checked? || phase.Counted? || phase.Sent? || phase.Confirmed? || phase.Unpaused?
  }

  /** A worker is in the lane of what it listed, and knows what the server and the disk hold of it. */
  ghost predicate WorkerOk(w: World, lane: string, k: Worker) {
    && LaneOf(k.listed) == lane && (k.file, k.listed) in w.submitted
    && (Holding(k.phase) ==> k.file in w.disk.files && w.disk.files[k.file] == k.listed)
    && (Clearing(k.phase) ==> (k.file, k.listed) in w.stored)
    && ((k.phase.Confirmed? || k.phase.Unpaused?) ==> Verdict(k.listed, k.phase.answer).None?)
  }

  ghost predicate Durable(w: World) {
    && (forall e :: e in w.submitted ==> (e.0 in w.disk.files && w.disk.files[e.0] == e.1) || e in w.stored)
    && (forall f :: f in w.disk.files ==> (f, w.disk.files[f]) in w.submitted)
    && (forall e :: e in w.wire ==> e in w.submitted)
    && (forall e :: e in w.stored ==> e in w.submitted)
    && (forall i, j :: 0 <= i < j < |w.stored| ==> w.stored[i].0 != w.stored[j].0)
    && (forall l :: l in w.workers ==> WorkerOk(w, l, w.workers[l]))
  }

  lemma ServeKeeps(w: World, file: File, content: Content)
    requires Durable(w) && (file, content) in w.wire
    ensures Durable(Next(w, Serve(file, content)))
  {
    var w' := Next(w, Serve(file, content));
    forall l | l in w'.workers
      ensures WorkerOk(w', l, w'.workers[l])
    {
      assert WorkerOk(w, l, w.workers[l]);
    }
  }

  lemma SubmitKeeps(w: World, file: File, content: Content)
    requires Durable(w) && Enabled(w, Submit(file, content))
    ensures Durable(Next(w, Submit(file, content)))
  {
    var w' := Next(w, Submit(file, content));
    forall l | l in w'.workers
      ensures WorkerOk(w', l, w'.workers[l])
    {
      assert WorkerOk(w, l, w.workers[l]);
    }
  }

  /** Removing a confirmed envelope loses nothing, and no other worker relies on it. */
  lemma RemovalKeeps(w: World, lane: string)
    requires Durable(w) && lane in w.workers && w.workers[lane].phase.Unpaused?
    ensures Durable(Next(w, Clear(lane)))
  {
    var w', k := Next(w, Clear(lane)), w.workers[lane];
    assert WorkerOk(w, lane, k);
    assert w'.disk.files == w.disk.files - {k.file};
    assert w'.submitted == w.submitted && w'.stored == w.stored && w'.wire == w.wire;
    forall l | l in w'.workers
      ensures WorkerOk(w', l, w'.workers[l])
    {
      assert WorkerOk(w, l, w.workers[l]);
      assert l != lane ==> w'.workers[l] == w.workers[l];
    }
  }

  /** Only one lane moves. */
  predicate OneLaneMoves(w: World, w': World, lane: string) {
    && w'.workers.Keys <= w.workers.Keys + {lane}
    && forall l :: l in w'.workers && l != lane ==> w'.workers[l] == w.workers[l]
  }

  lemma LaneKeeps(w: World, w': World, lane: string)
    requires Durable(w) && OneLaneMoves(w, w', lane)
    requires w'.disk.files == w.disk.files && w'.submitted == w.submitted && w'.stored == w.stored
    requires forall e :: e in w'.wire ==> e in w'.submitted
    requires lane in w'.workers ==> WorkerOk(w', lane, w'.workers[lane])
    ensures Durable(w')
  {
    forall l | l in w'.workers
      ensures WorkerOk(w', l, w'.workers[l])
    {
      assert l != lane ==> WorkerOk(w, l, w.workers[l]);
    }
  }

  /** The other steps touch neither envelopes nor the server. */
  predicate Quiet(w: World, w': World, lane: string) {
    && OneLaneMoves(w, w', lane) && w'.wire == w.wire
    && w'.disk.files == w.disk.files && w'.submitted == w.submitted && w'.stored == w.stored
  }

  lemma OthersKeep(w: World, s: Step)
    requires Durable(w) && Enabled(w, s) && !s.Submit? && !s.Serve? && !s.Clear? && !s.Record?
    ensures Durable(Next(w, s))
  {
    if s.Leave? || s.Break? || s.Gap? {
      assert Quiet(w, Next(w, s), s.lane);
      assert WorkerOk(w, s.lane, w.workers[s.lane]);
      LaneKeeps(w, Next(w, s), s.lane);
    } else {
      ProgressKeeps(w, s);
    }
  }

  lemma ProgressKeeps(w: World, s: Step)
    requires Durable(w) && Enabled(w, s) && (s.Open? || s.Check? || s.Count? || s.Transmit? || s.Receive?)
    ensures Durable(Next(w, s))
  {
    if s.Open? {
      LaneKeeps(w, Next(w, s), LaneOf(s.content));
    } else {
      assert WorkerOk(w, s.lane, w.workers[s.lane]);
      ProgressIsSound(w, s);
      LaneKeeps(w, Next(w, s), s.lane);
    }
  }

  lemma ProgressIsSound(w: World, s: Step)
    requires Enabled(w, s) && (s.Check? || s.Count? || s.Transmit? || s.Receive?)
    requires WorkerOk(w, s.lane, w.workers[s.lane])
    ensures var w' := Next(w, s);
      && OneLaneMoves(w, w', s.lane) && s.lane in w'.workers && WorkerOk(w', s.lane, w'.workers[s.lane])
      && w'.disk.files == w.disk.files && w'.submitted == w.submitted && w'.stored == w.stored
      && w'.wire <= w.wire + {(w.workers[s.lane].file, w.workers[s.lane].listed)}
  {
  }

  lemma ClearingKeeps(w: World, lane: string)
    requires Durable(w) && Enabled(w, Clear(lane)) && !w.workers[lane].phase.Unpaused?
    ensures Durable(Next(w, Clear(lane)))
  {
    assert WorkerOk(w, lane, w.workers[lane]);
    ClearingIsSound(w, lane);
    LaneKeeps(w, Next(w, Clear(lane)), lane);
  }

  lemma ClearingIsSound(w: World, lane: string)
    requires Enabled(w, Clear(lane)) && !w.workers[lane].phase.Unpaused? && WorkerOk(w, lane, w.workers[lane])
    ensures var w' := Next(w, Clear(lane));
      Quiet(w, w', lane) && (lane in w'.workers ==> WorkerOk(w', lane, w'.workers[lane]))
  {
  }

  lemma RecordingKeeps(w: World, s: Step)
    requires Durable(w) && Enabled(w, s) && s.Record?
    ensures Durable(Next(w, s))
  {
    RecordingIsQuiet(w, s);
    assert WorkerOk(w, s.lane, w.workers[s.lane]);
    LaneKeeps(w, Next(w, s), s.lane);
  }

  lemma RecordingIsQuiet(w: World, s: Step)
    requires Enabled(w, s) && s.Record?
    ensures var w' := Next(w, s);
      && Quiet(w, w', s.lane)
      && (s.lane in w'.workers ==>
            && w'.workers[s.lane] == w.workers[s.lane].(phase := w'.workers[s.lane].phase)
            && Recording(w'.workers[s.lane].phase))
  {
  }

  lemma StepKeeps(w: World, s: Step)
    requires Durable(w)
    ensures Durable(Next(w, s))
  {
    if Enabled(w, s) {
      if s.Submit? {
        SubmitKeeps(w, s.file, s.content);
      } else if s.Serve? {
        ServeKeeps(w, s.file, s.content);
      } else if s.Clear? && w.workers[s.lane].phase.Unpaused? {
        RemovalKeeps(w, s.lane);
      } else if s.Clear? {
        ClearingKeeps(w, s.lane);
      } else if s.Record? {
        RecordingKeeps(w, s);
      } else {
        OthersKeep(w, s);
      }
    }
  }

  lemma {:induction false} RunKeeps(w: World, steps: seq<Step>)
    requires Durable(w)
    ensures Durable(Run(w, steps))
    decreases |steps|
  {
    if steps != [] {
      StepKeeps(w, steps[0]);
      RunKeeps(Next(w, steps[0]), steps[1..]);
    }
  }

  /**
    Nothing is lost and nothing is stored twice: after any run, every event accepted from a caller is in
    the outbox or on the server, with the content it was submitted with, and the server stored each event
    at most once and only with a submitted content.
   */
  lemma NothingLostNorDoubled(steps: seq<Step>)
    ensures var w := Run(START, steps);
      && (forall e :: e in w.submitted ==> (e.0 in w.disk.files && w.disk.files[e.0] == e.1) || e in w.stored)
      && (forall e :: e in w.stored ==> e in w.submitted)
      && (forall i, j :: 0 <= i < j < |w.stored| ==> w.stored[i].0 != w.stored[j].0)
  {
    RunKeeps(START, steps);
  }

  /**
    An envelope disappears, in any run, only when a worker removes the one it sent, after a receipt that is
    valid for it, while the server has it stored.
   */
  lemma RemovedAfterReceipt(steps: seq<Step>, s: Step, f: File)
    requires var w := Run(START, steps);
      f in w.disk.files && (f in Next(w, s).disk.files ==> Next(w, s).disk.files[f] != w.disk.files[f])
    ensures var w := Run(START, steps);
      && s.Clear? && s.lane in w.workers && w.workers[s.lane].file == f && w.workers[s.lane].phase.Unpaused?
      && Verdict(w.disk.files[f], w.workers[s.lane].phase.answer).None? && (f, w.disk.files[f]) in w.stored
  {
    var w := Run(START, steps);
    RunKeeps(START, steps);
    OnlyClearingRemoves(w, s, f);
    assert WorkerOk(w, s.lane, w.workers[s.lane]);
  }

  lemma OnlyClearingRemoves(w: World, s: Step, f: File)
    requires f in w.disk.files && (f in Next(w, s).disk.files ==> Next(w, s).disk.files[f] != w.disk.files[f])
    ensures s.Clear? && s.lane in w.workers && w.workers[s.lane].file == f && w.workers[s.lane].phase.Unpaused?
  {
  }
}
