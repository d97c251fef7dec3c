/**
  The durable outbox: two queues of write-once envelopes that share lanes, sidecar states, lane markers
  and one authentication pause. A digest of a file stands for its content. Times inside envelopes are
  ordered as their texts are, with 0 for the empty text.
 */
module Outbox {
  import opened Wrappers
  import opened Retry
  import opened Receipts
  import Paths

  datatype Kind = Event | Injection

  /** A file of one queue, named after the event it holds. */
  datatype File = File(kind: Kind, id: string)

  datatype Item = Item(file: File, lane: string, time: nat, terminal: bool, hash: Option<Content>, parseError: bool)

  datatype Note = Unreadable | Note(sidecar: Sidecar<Content>)

  datatype Marker = BadMarker | Marker(owner: File, state: State)

  datatype Auth = NoAuth | BadAuth | Paused(credential: string)

  datatype Disk = Disk(files: map<File, Content>, notes: map<File, Note>, markers: map<string, Marker>, auth: Auth)

  // ---------------------------------------------------------------- listing a queue

  function LaneOf(content: Content): string {
    if content.Garbage? || content.session == "" then "legacy" else "session:" + content.session
  }

  function ItemOf(file: File, content: Content): Item {
    match content
    case Garbage(_) => Item(file, "legacy", 0, false, None, true)
    case Envelope(_, _, time, terminal, _, _) =>
      Item(file, LaneOf(content), if time.Text? then time.at else 0, terminal, Some(content), time.NotText?)
  }

  function Name(file: File): string {
    file.id + ".json"
  }

  /** Oldest first; at the same time a terminal event comes last; then by name. */
  predicate Before(a: Item, b: Item) {
    if a.time != b.time then a.time < b.time
    else if a.terminal != b.terminal then b.terminal
    else Paths.Less(Name(a.file), Name(b.file))
  }

  predicate SameLane(f: File, c: Content, g: File, d: Content) {
    f.kind == g.kind && LaneOf(c) == LaneOf(d)
  }

  /** Before is a strict order, and total on the files of one queue. */
  lemma BeforeTotal(a: Item, b: Item)
    requires a.file.kind == b.file.kind
    ensures a.file != b.file ==> Before(a, b) || Before(b, a)
    ensures !(Before(a, b) && Before(b, a)) && !Before(a, a)
  {
    Paths.LessTotal(Name(a.file), Name(b.file));
    if Name(a.file) == Name(b.file) {
      Paths.SameSuffix(a.file.id, b.file.id, ".json");
    }
  }

  lemma BeforeTransitive(a: Item, b: Item, c: Item)
    requires Before(a, b) && Before(b, c)
    ensures Before(a, c)
  {
    if Paths.Less(Name(a.file), Name(b.file)) && Paths.Less(Name(b.file), Name(c.file)) {
      Paths.LessTransitive(Name(a.file), Name(b.file), Name(c.file));
    }
  }

  /** The sorted listing of one queue. */
  ghost predicate Lists(items: seq<Item>, files: map<File, Content>, kind: Kind) {
    && (forall i :: 0 <= i < |items| ==>
          && items[i].file in files && items[i].file.kind == kind
          && items[i] == ItemOf(items[i].file, files[items[i].file]))
    && (forall f :: f in files && f.kind == kind ==> ItemOf(f, files[f]) in items)
    && (forall i, j :: 0 <= i < j < |items| ==> Before(items[i], items[j]))
  }

  // ---------------------------------------------------------------- answers

  /** What a send comes back with; a replay is the data of a 409 that says the request was already served. */
  datatype Response = Answer(receipt: Receipt) | Refused(failure: Failure, replay: Option<Receipt>)

  /** The failure of one delivery, or none when its receipt is valid. */
  function Verdict(content: Content, response: Response): Option<Failure> {
    var mismatch := Failure(ReceiptMismatch, None, NoTime);
    match response
    case Answer(receipt) => if Confirms(receipt, content) then None else Some(mismatch)
    case Refused(failure, replay) =>
      if failure.status != Some(409) || failure.code != IdempotentReplay || replay.None? then Some(failure)
      else if Confirms(replay.value, content) then None
      else Some(mismatch)
  }

  // ---------------------------------------------------------------- one flush

  /** What one item meets: whether time is up, the clock, the jitter and the answer to its send. */
  datatype Turn = Turn(late: bool, now: real, failedAt: real, rng: real, response: Response)

  datatype Context = Context(
    credential: string, predecessors: seq<Item>, busy: set<string>, turns: map<File, Turn>, usual: Turn)

  function TurnOf(ctx: Context, file: File): (turn: Turn) {
    if file in ctx.turns then ctx.turns[file] else ctx.usual
  }

  datatype Result = Result(queuedBefore: nat, flushed: nat, quarantined: nat, blocked: nat)

  /** A flush in progress, with the item and the disk of every send it has begun. */
  datatype Progress = Progress(disk: Disk, result: Result, attempts: nat, stopped: bool, sends: seq<(Item, Disk)>)

  const MAX_ATTEMPTS := 100

  function FreshSidecar(): Sidecar<Content> {
    Sidecar(Pending, 0, None, None, None, None, None, None)
  }

  predicate Usable(note: Note) {
    note.Note? && Valid(note.sidecar)
  }

  function SidecarOf(disk: Disk, file: File): Sidecar<Content> {
    if file in disk.notes && disk.notes[file].Note? then disk.notes[file].sidecar else FreshSidecar()
  }

  /** The sidecar or the marker cannot be used: the lane is handed to this file. */
  predicate Corrupt(disk: Disk, item: Item) {
    (item.file in disk.notes && !Usable(disk.notes[item.file])) ||
    (item.lane in disk.markers && disk.markers[item.lane].BadMarker?)
  }

  predicate Preceded(disk: Disk, item: Item, predecessors: seq<Item>) {
    exists other ::
      other in predecessors && other.lane == item.lane && other.time < item.time && other.file in disk.files
  }

  predicate OwnedByOther(disk: Disk, item: Item) {
    item.lane in disk.markers && disk.markers[item.lane].Marker? && disk.markers[item.lane].owner != item.file
  }

  predicate Terminal(state: State) {
    state in {Quarantined, BlockedProtocol, BlockedReconciliation}
  }

  /** A state that holds its item back under this credential, at this time. */
  predicate Held(sidecar: Sidecar<Content>, credential: string, now: real) {
    || Terminal(sidecar.state)
    || (sidecar.state == PausedAuth && sidecar.credential == Some(credential))
    || (sidecar.credential == Some(credential) && sidecar.nextRetryAt.Some? && sidecar.nextRetryAt.value > now)
  }

  /** A failure found before anything is sent. */
  function LocalFailure(disk: Disk, item: Item, sidecar: Sidecar<Content>): Option<Failure> {
    if item.parseError then Some(Failure(CorruptEnvelope, Some(422), NoTime))
    else if sidecar.hash.Some? && sidecar.hash != item.hash then Some(Failure(ReceiptMismatch, None, NoTime))
    else if item.file !in disk.files || item.hash != Some(disk.files[item.file]) then
      Some(Failure(ReceiptMismatch, None, NoTime))
    else None
  }

  /** The sidecar of a queued file cannot be used; nothing repairs it, so its lane stays closed. */
  predicate Stuck(disk: Disk, f: File) {
    f in disk.files && f in disk.notes && !Usable(disk.notes[f])
  }

  function Entry(disk: Disk, f: File): Item
    requires f in disk.files
  {
    ItemOf(f, disk.files[f])
  }

  function WithNote(disk: Disk, file: File, sidecar: Sidecar<Content>): Disk {
    disk.(notes := disk.notes[file := Note(sidecar)])
  }

  function WithMarker(disk: Disk, lane: string, marker: Marker): Disk {
    disk.(markers := disk.markers[lane := marker])
  }

  function Blocked(p: Progress, disk: Disk): Progress {
    p.(disk := disk, result := p.result.(blocked := p.result.blocked + 1))
  }

  function Gap(p: Progress, item: Item, code: ErrorCode): Progress {
    Blocked(p, WithNote(p.disk, item.file, SidecarOf(p.disk, item.file).(state := BlockedGap, error := Some(code))))
  }

  /** The disk right before the send: the attempt is counted first. */
  function WriteAhead(disk: Disk, item: Item): Disk {
    var sidecar := SidecarOf(disk, item.file);
    WithNote(disk, item.file, sidecar.(state := Pending, attempts := sidecar.attempts + 1, hash := item.hash))
  }

  function Remove(disk: Disk, item: Item): Disk {
    Disk(disk.files - {item.file}, disk.notes - {item.file}, disk.markers - {item.lane}, NoAuth)
  }

  /** The disk after a failed delivery: the schedule in the sidecar, the lane marked with this file. */
  function Rescheduled(disk: Disk, item: Item, failure: Failure, sidecar: Sidecar<Content>, turn: Turn,
                       credential: string): Disk
    requires sidecar.attempts >= 0
  {
    var next := RetryState(failure, sidecar, turn.failedAt, turn.rng, credential).(hash := item.hash);
    var noted := WithMarker(WithNote(disk, item.file, next), item.lane, Marker(item.file, next.state));
    if next.state == PausedAuth then noted.(auth := Paused(credential)) else noted
  }

  function AfterFailure(p: Progress, item: Item, disk: Disk, failure: Failure, ctx: Context): Progress
    requires SidecarOf(p.disk, item.file).attempts >= 0
  {
    var state := Classify(failure);
    p.(disk := Rescheduled(disk, item, failure, SidecarOf(p.disk, item.file), TurnOf(ctx, item.file), ctx.credential),
       result := if state == Quarantined then p.result.(quarantined := p.result.quarantined + 1)
                 else p.result.(blocked := p.result.blocked + 1),
       stopped := state == PausedAuth)
  }

  function Send(p: Progress, item: Item, ctx: Context): Progress
    requires item.file in p.disk.files && SidecarOf(p.disk, item.file).attempts >= 0
  {
    var ahead := WriteAhead(p.disk, item);
    var p' := p.(attempts := p.attempts + 1, sends := p.sends + [(item, p.disk)]);
    var failure := Verdict(p.disk.files[item.file], TurnOf(ctx, item.file).response);
    if failure.None? then
      p'.(disk := Remove(ahead, item), result := p.result.(flushed := p.result.flushed + 1))
    else
      AfterFailure(p', item, ahead, failure.value, ctx)
  }

  /** One turn of the loop, every branch in the order of the source. */
  function FlushItem(p: Progress, item: Item, ctx: Context): Progress {
    if p.attempts >= MAX_ATTEMPTS || TurnOf(ctx, item.file).late then p.(stopped := true)
    else if item.lane in ctx.busy then Blocked(p, p.disk)
    else if item.file !in p.disk.files then p
    else if Corrupt(p.disk, item) then Blocked(p, WithMarker(p.disk, item.lane, Marker(item.file, BlockedProtocol)))
    else if Preceded(p.disk, item, ctx.predecessors) then Gap(p, item, PendingPredecessor)
    else if OwnedByOther(p.disk, item) then Gap(p, item, LaneGap)
    else
      var sidecar := SidecarOf(p.disk, item.file);
      if Held(sidecar, ctx.credential, TurnOf(ctx, item.file).now) then Blocked(p, p.disk)
      else if LocalFailure(p.disk, item, sidecar).Some? then
        AfterFailure(p, item, p.disk, LocalFailure(p.disk, item, sidecar).value, ctx)
      else Send(p, item, ctx)
  }

  function FlushAll(p: Progress, items: seq<Item>, ctx: Context): Progress
    decreases |items|
  {
    if items == [] || p.stopped then p else FlushAll(FlushItem(p, items[0], ctx), items[1..], ctx)
  }

  function Start(disk: Disk, items: seq<Item>): Progress {
    Progress(disk, Result(|items|, 0, 0, 0), 0, false, [])
  }

  /** A pause under the same credential, or one that cannot be read, blocks the whole flush. */
  predicate PausesAll(auth: Auth, credential: string) {
    auth.BadAuth? || auth == Paused(credential)
  }

  function Flush(disk: Disk, items: seq<Item>, ctx: Context): Progress {
    if PausesAll(disk.auth, ctx.credential) then
      Start(disk, items).(result := Result(|items|, 0, 0, |items|))
    else FlushAll(Start(disk, items), items, ctx)
  }
}
