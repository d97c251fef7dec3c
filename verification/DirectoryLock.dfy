/**
  The lock on a directory of pending records: one kernel lock per directory, entered again by the thread
  that owns it. What a thread holds is kept in its own storage, which a fork copies into the child.
 */
module DirectoryLock {
  import opened Wrappers

  /** What a thread holds on a directory: an open file description, and how often it has entered. */
  datatype Entry = Entry(description: nat, depth: int)

  /** A thread, the process identifier it saw last, what it holds, and what it waits for. */
  datatype Thread = Thread(process: nat, seen: Option<nat>, held: map<string, Entry>, waiting: Option<(string, nat)>)

  /**
    The kernel's side: which processes have which descriptions open, and the description that locks each
    directory. Identifiers of processes are not used again; homes gives the process that opened each description.
   */
  datatype World = World(
    threads: map<nat, Thread>, processes: set<nat>, open: set<(nat, nat)>, locked: map<string, nat>, homes: seq<nat>)

  const START := World(map[], {}, {}, map[], [])

  datatype Step =
    | StartProcess(process: nat, thread: nat)
    | StartThread(parent: nat, thread: nat)
    | Fork(parent: nat, process: nat, thread: nat)
    | Enter(thread: nat, directory: string)
    | Grant(thread: nat)
    | Abandon(thread: nat)
    | Exit(thread: nat, directory: string)
    | Die(process: nat)

  predicate Running(w: World, t: nat) {
    t in w.threads && w.threads[t].waiting.None?
  }

  predicate Enabled(w: World, s: Step) {
    match s
    case StartProcess(process, thread) => process !in w.processes && thread !in w.threads
    case StartThread(parent, thread) => Running(w, parent) && thread !in w.threads
    case Fork(parent, process, thread) => Running(w, parent) && process !in w.processes && thread !in w.threads
    case Enter(thread, _) => Running(w, thread)
    case Grant(thread) =>
      thread in w.threads && w.threads[thread].waiting.Some? && w.threads[thread].waiting.value.0 !in w.locked
    case Abandon(thread) => thread in w.threads && w.threads[thread].waiting.Some?
    case Exit(thread, _) => Running(w, thread)
    case Die(process) => process in w.processes
  }

  /** Descriptions are closed; a lock lasts as long as some process has its description open. */
  function Close(w: World, closed: set<(nat, nat)>): World {
    var open := w.open - closed;
    w.(open := open, locked := map d | d in w.locked && exists o :: o in open && o.1 == w.locked[d] :: w.locked[d])
  }

  /** Whether this storage was copied from the process that forked. */
  predicate Copied(th: Thread) {
    th.seen.Some? && th.seen.value != th.process
  }

  function Descriptions(th: Thread): set<nat> {
    set d | d in th.held :: th.held[d].description
  }

  /** A process's ends of descriptions. */
  function Ends(process: nat, descriptions: set<nat>): set<(nat, nat)> {
    set x | x in descriptions :: (process, x)
  }

  /** What a thread does first: a copy is emptied, and its descriptions closed without unlocking. */
  function Refresh(w: World, t: nat): World
    requires t in w.threads
  {
    var th := w.threads[t];
    var own := w.(threads := w.threads[t := th.(seen := Some(th.process),
                                                held := if Copied(th) then map[] else th.held)]);
    if Copied(th) then Close(own, Ends(th.process, Descriptions(th))) else own
  }

  function SetHeld(w: World, t: nat, held: map<string, Entry>): World
    requires t in w.threads
  {
    w.(threads := w.threads[t := w.threads[t].(held := held)])
  }

  function EnterOwn(w: World, t: nat, directory: string): World
    requires t in w.threads
  {
    var th := w.threads[t];
    if directory in th.held then
      SetHeld(w, t, th.held[directory := th.held[directory].(depth := th.held[directory].depth + 1)])
    else
      w.(threads := w.threads[t := th.(waiting := Some((directory, |w.homes|)))],
         open := w.open + {(th.process, |w.homes|)}, homes := w.homes + [th.process])
  }

  /** Leaving a directory that is not held is an error and changes nothing. */
  function ExitOwn(w: World, t: nat, directory: string): World
    requires t in w.threads
  {
    var th := w.threads[t];
    if directory !in th.held then w
    else
      var entry := th.held[directory];
      if entry.depth != 1 then SetHeld(w, t, th.held[directory := entry.(depth := entry.depth - 1)])
      else
        var unlocked := if directory in w.locked && w.locked[directory] == entry.description
                        then w.(locked := w.locked - {directory}) else w;
        Close(SetHeld(unlocked, t, th.held - {directory}), {(th.process, entry.description)})
  }

  function Apply(w: World, s: Step): World
    requires Enabled(w, s)
  {
    match s
    case StartProcess(process, thread) =>
      w.(threads := w.threads[thread := Thread(process, None, map[], None)], processes := w.processes + {process})
    case StartThread(parent, thread) =>
      w.(threads := w.threads[thread := Thread(w.threads[parent].process, None, map[], None)])
    case Fork(parent, process, thread) =>
      var th := w.threads[parent];
      w.(threads := w.threads[thread := th.(process := process)], processes := w.processes + {process},
         open := w.open + set o | o in w.open && o.0 == th.process :: (process, o.1))
    case Enter(thread, directory) => EnterOwn(Refresh(w, thread), thread, directory)
    case Grant(thread) =>
      var th := w.threads[thread];
      var (directory, description) := th.waiting.value;
      w.(threads := w.threads[thread := th.(held := th.held[directory := Entry(description, 1)], waiting := None)],
         locked := w.locked[directory := description])
    case Abandon(thread) =>
      var th := w.threads[thread];
      Close(w.(threads := w.threads[thread := th.(waiting := None)]), {(th.process, th.waiting.value.1)})
    case Exit(thread, directory) => ExitOwn(Refresh(w, thread), thread, directory)
    case Die(process) =>
      Close(w.(threads := map t | t in w.threads && w.threads[t].process != process :: w.threads[t]),
            set o | o in w.open && o.0 == process)
  }

  function Next(w: World, s: Step): World {
    if Enabled(w, s) then Apply(w, s) else w
  }

  function Run(w: World, steps: seq<Step>): World
    decreases |steps|
  {
    if steps == [] then w else Run(Next(w, steps[0]), steps[1..])
  }

  // ---------------------------------------------------------------- the invariant

  predicate Owns(w: World, t: nat, directory: string) {
    t in w.threads && !Copied(w.threads[t]) && directory in w.threads[t].held
  }

  function Depth(w: World, t: nat, directory: string): int {
    if Owns(w, t, directory) then w.threads[t].held[directory].depth else 0
  }

  /** What a thread's storage lists was opened by the process it last saw. */
  ghost predicate ThreadOk(w: World, th: Thread) {
    && th.process in w.processes
    && (if th.seen.None? then th.held == map[] else th.seen.value in w.processes)
    && (forall d :: d in th.held ==>
          th.held[d].description < |w.homes| && th.seen == Some(w.homes[th.held[d].description]))
  }

  /** An owner holds the kernel's lock. */
  predicate OwnerOk(w: World, t: nat, d: string)
    requires Owns(w, t, d)
  {
    var th := w.threads[t];
    && th.held[d].depth >= 1 && d in w.locked && w.locked[d] == th.held[d].description
    && (th.process, th.held[d].description) in w.open
  }

  predicate Waits(w: World, t: nat) {
    t in w.threads && w.threads[t].waiting.Some?
  }

  /** A thread waits with a description its process opened, which locks nothing yet. */
  ghost predicate WaitOk(w: World, t: nat)
    requires Waits(w, t)
  {
    var th := w.threads[t];
    var (directory, description) := th.waiting.value;
    && !Copied(th) && th.seen.Some? && directory !in th.held
    && description < |w.homes| && w.homes[description] == th.process && (th.process, description) in w.open
    && (forall d :: d in w.locked ==> w.locked[d] != description)
  }

  ghost predicate Inv(w: World) {
    && (forall t :: t in w.threads ==> ThreadOk(w, w.threads[t]))
    && (forall t, d :: Owns(w, t, d) ==> OwnerOk(w, t, d))
    && (forall t, t', d :: Owns(w, t, d) && Owns(w, t', d) ==> t == t')
    && (forall t :: Waits(w, t) ==> WaitOk(w, t))
    && (forall t,
        t' :: Waits(w, t) && Waits(w, t') && t != t' ==> w.threads[t].waiting.value.1 != w.threads[t'].waiting.value.1)
    && LocksOk(w)
  }

  /** Each lock has a description of its own. */
  ghost predicate LocksOk(w: World) {
    && (forall d :: d in w.locked ==> w.locked[d] < |w.homes|)
    && (forall d, d' :: d in w.locked && d' in w.locked && d != d' ==> w.locked[d] != w.locked[d'])
  }

  lemma CloseKeeps(w: World, closed: set<(nat, nat)>)
    requires Inv(w)
    requires forall t, d :: Owns(w, t, d) ==> (w.threads[t].process, w.threads[t].held[d].description) !in closed
    requires forall t :: Waits(w, t) ==> (w.threads[t].process, w.threads[t].waiting.value.1) !in closed
    ensures Inv(Close(w, closed))
    ensures forall t, d :: Owns(w, t, d) ==> Owns(Close(w, closed), t, d)
  {
    var w' := Close(w, closed);
    forall t, d | Owns(w', t, d)
      ensures OwnerOk(w', t, d)
    {
      assert Owns(w, t, d) && OwnerOk(w, t, d);
      assert (w.threads[t].process, w.threads[t].held[d].description) in w'.open;
    }
    forall t | Waits(w', t)
      ensures WaitOk(w', t)
    {
      assert Waits(w, t) && WaitOk(w, t);
    }
    forall t, t' | Waits(w', t) && Waits(w', t') && t != t'
      ensures w'.threads[t].waiting.value.1 != w'.threads[t'].waiting.value.1
    {
      assert Waits(w, t) && Waits(w, t');
    }
    forall t, t', d | Owns(w', t, d) && Owns(w', t', d)
      ensures t == t'
    {
      assert Owns(w, t, d) && Owns(w, t', d);
    }
  }

  // ---------------------------------------------------------------- what each step keeps

  /** The descriptions opened by other processes are not those of an owner or a waiter of this one. */
  lemma ForeignDescriptions(w: World, process: nat, descriptions: set<nat>)
    requires Inv(w) && forall x :: x in descriptions ==> x < |w.homes| && w.homes[x] != process
    ensures Inv(Close(w, Ends(process, descriptions)))
    ensures forall t, d :: Owns(w, t, d) ==> Owns(Close(w, Ends(process, descriptions)), t, d)
  {
    var closed := Ends(process, descriptions);
    forall t, d | Owns(w, t, d)
      ensures (w.threads[t].process, w.threads[t].held[d].description) !in closed
    {
      assert ThreadOk(w, w.threads[t]);
    }
    forall t | Waits(w, t)
      ensures (w.threads[t].process, w.threads[t].waiting.value.1) !in closed
    {
      assert WaitOk(w, t);
    }
    CloseKeeps(w, closed);
  }

  /** A thread that is not waiting and gains nothing can be put in place of another, or added. */
  lemma IdleThreadKeeps(w: World, t: nat, th: Thread)
    requires Inv(w) && ThreadOk(w, th) && th.waiting.None?
    requires Copied(th) || th.held == map[] || (t in w.threads && !Copied(w.threads[t]) && th.held == w.threads[t].held
                                                && th.process == w.threads[t].process)
    ensures Inv(w.(threads := w.threads[t := th]))
  {
    var w' := w.(threads := w.threads[t := th]);
    IdleThreadOwners(w, t, th);
    forall u | Waits(w', u)
      ensures Waits(w, u) && WaitOk(w', u)
    {
      assert Waits(w, u) && WaitOk(w, u);
    }
  }

  lemma IdleThreadOwners(w: World, t: nat, th: Thread)
    requires forall u, d :: Owns(w, u, d) ==> OwnerOk(w, u, d)
    requires Copied(th) || th.held == map[] || (t in w.threads && !Copied(w.threads[t]) && th.held == w.threads[t].held
                                                && th.process == w.threads[t].process)
    ensures var w' := w.(threads := w.threads[t := th]); forall u, d :: Owns(w', u, d) ==>
      Owns(w, u, d) && OwnerOk(w', u, d)
  {
    var w' := w.(threads := w.threads[t := th]);
    forall u, d | Owns(w', u, d)
      ensures Owns(w, u, d) && OwnerOk(w', u, d)
    {
      assert Owns(w, u, d) && OwnerOk(w, u, d);
    }
  }

  lemma RefreshKeeps(w: World, t: nat)
    requires Inv(w) && Running(w, t)
    ensures Inv(Refresh(w, t)) && Running(Refresh(w, t), t)
    ensures forall u, d :: Owns(w, u, d) ==> Owns(Refresh(w, t), u, d)
  {
    var th := w.threads[t];
    assert ThreadOk(w, th);
    var refreshed := th.(seen := Some(th.process), held := if Copied(th) then map[] else th.held);
    var own := w.(threads := w.threads[t := refreshed]);
    IdleThreadKeeps(w, t, refreshed);
    assert forall u, d :: Owns(w, u, d) ==> Owns(own, u, d);
    if Copied(th) {
      ForeignDescriptions(own, th.process, Descriptions(th));
    }
  }

  /** A thread that works on its own storage. */
  predicate Acting(w: World, t: nat) {
    Running(w, t) && w.threads[t].seen == Some(w.threads[t].process)
  }

  lemma RefreshActs(w: World, t: nat)
    requires Running(w, t)
    ensures Acting(Refresh(w, t), t)
  {
  }

  /** Entering again, or leaving but not for the last time, changes a depth only. */
  function WithDepth(w: World, t: nat, directory: string, depth: int): World
    requires Owns(w, t, directory)
  {
    SetHeld(w, t, w.threads[t].held[directory := w.threads[t].held[directory].(depth := depth)])
  }

  lemma DepthOwners(w: World, t: nat, directory: string, depth: int)
    requires Inv(w) && Owns(w, t, directory) && depth >= 1
    ensures var w' := WithDepth(w, t, directory, depth);
      && (forall u, d :: Owns(w', u, d) <==> Owns(w, u, d))
      && (forall u, d :: Owns(w', u, d) ==> OwnerOk(w', u, d))
  {
    var w' := WithDepth(w, t, directory, depth);
    forall u, d | Owns(w, u, d)
      ensures Owns(w', u, d) && OwnerOk(w', u, d)
    {
      assert OwnerOk(w, u, d);
    }
  }

  lemma DepthKeeps(w: World, t: nat, directory: string, depth: int)
    requires Inv(w) && Acting(w, t) && Owns(w, t, directory) && depth >= 1
    ensures Inv(WithDepth(w, t, directory, depth))
    ensures forall u, d :: Owns(w, u, d) ==> Owns(WithDepth(w, t, directory, depth), u, d)
  {
    var w' := WithDepth(w, t, directory, depth);
    DepthOwners(w, t, directory, depth);
    assert ThreadOk(w, w.threads[t]);
    forall u | Waits(w', u)
      ensures Waits(w, u) && WaitOk(w', u)
    {
      assert Waits(w, u) && WaitOk(w, u);
    }
    assert LocksOk(w');
  }

  /** A thread that opens a description waits with it. */
  lemma OpeningKeeps(w: World, t: nat, directory: string)
    requires Inv(w) && Acting(w, t) && directory !in w.threads[t].held
    ensures Inv(EnterOwn(w, t, directory))
  {
    var w' := EnterOwn(w, t, directory);
    assert ThreadOk(w, w.threads[t]);
    forall u | u in w'.threads
      ensures ThreadOk(w', w'.threads[u])
    {
      assert ThreadOk(w, w.threads[u]);
    }
    forall u, d | Owns(w', u, d)
      ensures Owns(w, u, d) && OwnerOk(w', u, d)
    {
      assert Owns(w, u, d) && OwnerOk(w, u, d);
    }
    forall u | Waits(w', u)
      ensures WaitOk(w', u) && (u != t ==> Waits(w, u) && w'.threads[u].waiting.value.1 < |w.homes|)
    {
      assert u != t ==> Waits(w, u) && WaitOk(w, u);
    }
  }

  /** The kernel grants a free lock: nobody owned the directory. */
  lemma GrantOwners(w: World, t: nat)
    requires Inv(w) && Enabled(w, Grant(t))
    ensures var w', directory := Next(w, Grant(t)), w.threads[t].waiting.value.0;
      && (forall u :: !Owns(w, u, directory))
      && (forall u, d :: Owns(w', u, d) <==> Owns(w, u, d) || (u == t && d == directory))
      && (forall u, d :: Owns(w', u, d) ==> OwnerOk(w', u, d))
  {
    var w', directory := Next(w, Grant(t)), w.threads[t].waiting.value.0;
    assert Waits(w, t) && WaitOk(w, t);
    forall u, d | Owns(w, u, d)
      ensures d != directory && Owns(w', u, d) && OwnerOk(w', u, d)
    {
      assert OwnerOk(w, u, d);
    }
  }

  lemma GrantKeeps(w: World, t: nat)
    requires Inv(w) && Enabled(w, Grant(t))
    ensures Inv(Next(w, Grant(t)))
    ensures forall u, d :: Owns(w, u, d) ==> Owns(Next(w, Grant(t)), u, d)
  {
    var w' := Next(w, Grant(t));
    GrantOwners(w, t);
    GrantWaits(w, t);
    assert Waits(w, t) && WaitOk(w, t) && ThreadOk(w, w.threads[t]);
    assert ThreadOk(w', w'.threads[t]);
    forall u, u' | Waits(w', u) && Waits(w', u') && u != u'
      ensures w'.threads[u].waiting.value.1 != w'.threads[u'].waiting.value.1
    {
      assert Waits(w, u) && Waits(w, u');
    }
  }

  lemma GrantWaits(w: World, t: nat)
    requires Inv(w) && Enabled(w, Grant(t))
    ensures var w' := Next(w, Grant(t));
      (forall u :: Waits(w', u) ==> u != t && Waits(w, u) && WaitOk(w', u)) && LocksOk(w')
  {
    var w' := Next(w, Grant(t));
    assert Waits(w, t) && WaitOk(w, t);
    forall u | Waits(w', u)
      ensures u != t && Waits(w, u) && WaitOk(w', u)
    {
      assert Waits(w, u) && WaitOk(w, u);
    }
  }

  lemma AbandonKeeps(w: World, t: nat)
    requires Inv(w) && Enabled(w, Abandon(t))
    ensures Inv(Next(w, Abandon(t)))
    ensures forall u, d :: Owns(w, u, d) ==> Owns(Next(w, Abandon(t)), u, d)
  {
    var th := w.threads[t];
    var idle := w.(threads := w.threads[t := th.(waiting := None)]);
    assert ThreadOk(w, th) && Waits(w, t) && WaitOk(w, t);
    IdleThreadKeeps(w, t, th.(waiting := None));
    var closed := {(th.process, th.waiting.value.1)};
    forall u, d | Owns(idle, u, d)
      ensures Owns(w, u, d) && (idle.threads[u].process, idle.threads[u].held[d].description) !in closed
    {
      assert Owns(w, u, d) && OwnerOk(w, u, d);
    }
    forall u | Waits(idle, u)
      ensures (idle.threads[u].process, idle.threads[u].waiting.value.1) !in closed
    {
      assert Waits(w, u) && u != t;
    }
    CloseKeeps(idle, closed);
    assert forall u, d :: Owns(w, u, d) ==> Owns(idle, u, d);
  }

  /** Leaving for the last time unlocks the directory, and only that one. */
  lemma LastExitKeeps(w: World, t: nat, directory: string)
    requires Inv(w) && Acting(w, t) && directory in w.threads[t].held && w.threads[t].held[directory].depth == 1
    ensures Inv(ExitOwn(w, t, directory)) && directory !in ExitOwn(w, t, directory).locked
    ensures forall u, d :: Owns(w, u, d) && (u != t || d != directory) ==> Owns(ExitOwn(w, t, directory), u, d)
  {
    var th := w.threads[t];
    assert Owns(w, t, directory) && OwnerOk(w, t, directory) && ThreadOk(w, th);
    var left := SetHeld(w.(locked := w.locked - {directory}), t, th.held - {directory});
    ReleasedKeeps(w, left, t, directory);
    var closed := {(th.process, th.held[directory].description)};
    forall u, d | Owns(left, u, d)
      ensures (left.threads[u].process, left.threads[u].held[d].description) !in closed
    {
      assert Owns(w, u, d) && OwnerOk(w, u, d) && d != directory;
    }
    forall u | Waits(left, u)
      ensures (left.threads[u].process, left.threads[u].waiting.value.1) !in closed
    {
      assert Waits(w, u) && WaitOk(w, u);
    }
    CloseKeeps(left, closed);
    assert ExitOwn(w, t, directory) == Close(left, closed);
    assert forall u, d :: Owns(w, u, d) && (u != t || d != directory) ==> Owns(left, u, d);
  }

  lemma ReleasedKeeps(w: World, left: World, t: nat, directory: string)
    requires Inv(w) && Acting(w, t) && Owns(w, t, directory)
    requires left == SetHeld(w.(locked := w.locked - {directory}), t, w.threads[t].held - {directory})
    ensures Inv(left) && forall u, d :: Owns(left, u, d) ==> Owns(w, u, d) && d != directory
  {
    assert ThreadOk(w, w.threads[t]);
    forall u, d | Owns(left, u, d)
      ensures Owns(w, u, d) && d != directory && OwnerOk(left, u, d)
    {
      assert Owns(w, u, d) && OwnerOk(w, u, d);
      assert d == directory ==> u == t;
    }
    forall u | Waits(left, u)
      ensures Waits(w, u) && WaitOk(left, u)
    {
      assert Waits(w, u) && WaitOk(w, u);
    }
  }

  /** A process that dies takes its threads with it; what others own stays theirs. */
  lemma DeathKeeps(w: World, process: nat)
    requires Inv(w) && process in w.processes
    ensures Inv(Next(w, Die(process)))
    ensures forall u, d :: Owns(w, u, d) && w.threads[u].process != process ==> Owns(Next(w, Die(process)), u, d)
  {
    var left := w.(threads := map t | t in w.threads && w.threads[t].process != process :: w.threads[t]);
    forall u, d | Owns(left, u, d)
      ensures Owns(w, u, d) && OwnerOk(left, u, d)
    {
      assert Owns(w, u, d) && OwnerOk(w, u, d);
    }
    forall u | Waits(left, u)
      ensures Waits(w, u) && WaitOk(left, u)
    {
      assert Waits(w, u) && WaitOk(w, u);
    }
    CloseKeeps(left, set o | o in w.open && o.0 == process);
    assert forall u, d :: Owns(w, u, d) && w.threads[u].process != process ==> Owns(left, u, d);
  }

  /** New identifiers and new ends of descriptions disturb nobody. */
  lemma GrowthKeeps(w: World, processes: set<nat>, open: set<(nat, nat)>)
    requires Inv(w)
    ensures Inv(w.(processes := w.processes + processes, open := w.open + open))
  {
    var w' := w.(processes := w.processes + processes, open := w.open + open);
    forall u, d | Owns(w', u, d)
      ensures Owns(w, u, d) && OwnerOk(w', u, d)
    {
      assert Owns(w, u, d) && OwnerOk(w, u, d);
    }
    forall u | Waits(w', u)
      ensures Waits(w, u) && WaitOk(w', u)
    {
      assert Waits(w, u) && WaitOk(w, u);
    }
  }

  lemma StartKeeps(w: World, s: Step)
    requires Inv(w) && Enabled(w, s) && (s.StartProcess? || s.StartThread? || s.Fork?)
    ensures Inv(Next(w, s)) && forall d :: !Owns(Next(w, s), s.thread, d)
    ensures forall t, d :: Owns(w, t, d) ==> Owns(Next(w, s), t, d)
  {
    if s.StartThread? {
      assert ThreadOk(w, w.threads[s.parent]);
      IdleThreadKeeps(w, s.thread, Thread(w.threads[s.parent].process, None, map[], None));
    } else {
      var open := if s.Fork? then set o | o in w.open && o.0 == w.threads[s.parent].process :: (s.process, o.1) else {};
      GrowthKeeps(w, {s.process}, open);
      var grown := w.(processes := w.processes + {s.process}, open := w.open + open);
      if s.Fork? {
        assert ThreadOk(w, w.threads[s.parent]);
        IdleThreadKeeps(grown, s.thread, w.threads[s.parent].(process := s.process));
      } else {
        IdleThreadKeeps(grown, s.thread, Thread(s.process, None, map[], None));
        assert grown.open == w.open;
      }
    }
  }

  lemma EnterKeeps(w: World, t: nat, directory: string)
    requires Inv(w) && Running(w, t)
    ensures Inv(Next(w, Enter(t, directory)))
    ensures forall u, d :: Owns(w, u, d) ==> Owns(Next(w, Enter(t, directory)), u, d)
  {
    RefreshKeeps(w, t);
    RefreshActs(w, t);
    EnterOwnKeeps(Refresh(w, t), t, directory);
  }

  lemma EnterOwnKeeps(w: World, t: nat, directory: string)
    requires Inv(w) && Acting(w, t)
    ensures Inv(EnterOwn(w, t, directory))
    ensures forall u, d :: Owns(w, u, d) ==> Owns(EnterOwn(w, t, directory), u, d)
  {
    if directory in w.threads[t].held {
      assert Owns(w, t, directory) && OwnerOk(w, t, directory);
      DepthKeeps(w, t, directory, w.threads[t].held[directory].depth + 1);
    } else {
      OpeningKeeps(w, t, directory);
    }
  }

  /** The thread's last exit from the directory, or the death of its process. */
  predicate GivesUp(w: World, s: Step, t: nat, d: string)
    requires t in w.threads
  {
    || (s.Exit? && Running(w, t) && s.thread == t && s.directory == d && Depth(w, t, d) == 1)
    || (s.Die? && s.process == w.threads[t].process)
  }

  lemma ExitKeeps(w: World, t: nat, directory: string)
    requires Inv(w) && Running(w, t)
    ensures Inv(Next(w, Exit(t, directory)))
    ensures forall u, d :: Owns(w, u, d) && !GivesUp(w, Exit(t, directory), u, d) ==>
      Owns(Next(w, Exit(t, directory)), u, d)
    ensures GivesUp(w, Exit(t, directory), t, directory) ==> directory !in Next(w, Exit(t, directory)).locked
  {
    RefreshKeeps(w, t);
    RefreshActs(w, t);
    assert Depth(Refresh(w, t), t, directory) == Depth(w, t, directory);
    ExitOwnKeeps(Refresh(w, t), t, directory);
  }

  lemma ExitOwnKeeps(w: World, t: nat, directory: string)
    requires Inv(w) && Acting(w, t)
    ensures Inv(ExitOwn(w, t, directory))
    ensures forall u, d :: Owns(w, u, d) && !(u == t && d == directory && Depth(w, t, d) == 1) ==>
      Owns(ExitOwn(w, t, directory), u, d)
    ensures Depth(w, t, directory) == 1 ==> directory !in ExitOwn(w, t, directory).locked
  {
    if directory in w.threads[t].held {
      assert Owns(w, t, directory) && OwnerOk(w, t, directory);
      var depth := w.threads[t].held[directory].depth;
      if depth == 1 {
        LastExitKeeps(w, t, directory);
      } else {
        DepthKeeps(w, t, directory, depth - 1);
        assert ExitOwn(w, t, directory) == WithDepth(w, t, directory, depth - 1);
      }
    }
  }

  lemma StepKeeps(w: World, s: Step)
    requires Inv(w)
    ensures Inv(Next(w, s))
    ensures forall t, d :: Owns(w, t, d) && !GivesUp(w, s, t, d) ==> Owns(Next(w, s), t, d)
    ensures s.Exit? && s.thread in w.threads && GivesUp(w, s, s.thread, s.directory) ==>
      s.directory !in Next(w, s).locked
  {
    if Enabled(w, s) {
      match s
      case StartProcess(_, _) => StartKeeps(w, s);
      case StartThread(_, _) => StartKeeps(w, s);
      case Fork(_, _, _) => StartKeeps(w, s);
      case Enter(t, directory) => EnterKeeps(w, t, directory);
      case Grant(t) => GrantKeeps(w, t);
      case Abandon(t) => AbandonKeeps(w, t);
      case Exit(t, directory) => ExitKeeps(w, t, directory);
      case Die(process) => DeathKeeps(w, process);
    }
  }

  // ---------------------------------------------------------------- no lock without an owner

  /** A kernel lock is never moved to another description. */
  lemma LocksStay(w: World, s: Step, d: string)
    requires d in w.locked && d in Next(w, s).locked
    ensures Next(w, s).locked[d] == w.locked[d]
  {
  }

  ghost predicate HasOwner(w: World, d: string) {
    exists t :: Owns(w, t, d)
  }

  predicate Gone(w: World, process: nat) {
    process in w.processes && forall t :: t in w.threads ==> w.threads[t].process != process
  }

  /** A locked directory is owned, or the process that locked it is dead. */
  ghost predicate Manned(w: World) {
    forall d :: d in w.locked ==> HasOwner(w, d) || (w.locked[d] < |w.homes| && Gone(w, w.homes[w.locked[d]]))
  }

  /** A thread keeps its process; a new one is of a new process, or of one that has a thread. */
  lemma ProcessKept(w: World, s: Step, t: nat)
    requires Enabled(w, s) && t in Next(w, s).threads
    ensures var process := Next(w, s).threads[t].process;
      if t in w.threads then process == w.threads[t].process
      else process !in w.processes || (s.StartThread? && process == w.threads[s.parent].process)
  {
    if s.Enter? || s.Exit? {
      assert Refresh(w, s.thread).threads.Keys == w.threads.Keys;
    }
  }

  lemma GoneStays(w: World, s: Step, process: nat)
    requires Gone(w, process)
    ensures Gone(Next(w, s), process)
  {
    forall t | t in Next(w, s).threads
      ensures Next(w, s).threads[t].process != process
    {
      if Enabled(w, s) {
        ProcessKept(w, s, t);
      }
    }
  }

  lemma StepManned(w: World, s: Step)
    requires Inv(w) && Manned(w)
    ensures Manned(Next(w, s))
  {
    var w' := Next(w, s);
    StepKeeps(w, s);
    forall d | d in w'.locked
      ensures HasOwner(w', d) || (w'.locked[d] < |w'.homes| && Gone(w', w'.homes[w'.locked[d]]))
    {
      if d in w.locked {
        LocksStay(w, s, d);
        LockManned(w, s, d);
      } else {
        NewLockOwned(w, s, d);
      }
    }
  }

  lemma NewLockOwned(w: World, s: Step, d: string)
    requires d !in w.locked && d in Next(w, s).locked && Inv(w)
    ensures HasOwner(Next(w, s), d)
  {
    assert s.Grant? && Enabled(w, s);
    assert Waits(w, s.thread) && WaitOk(w, s.thread);
    assert Owns(Next(w, s), s.thread, d);
  }

  lemma LockManned(w: World, s: Step, d: string)
    requires Inv(w) && d in w.locked && d in Next(w, s).locked && Next(w, s).locked[d] == w.locked[d]
    requires HasOwner(w, d) || (w.locked[d] < |w.homes| && Gone(w, w.homes[w.locked[d]]))
    ensures var w' := Next(w, s);
      HasOwner(w', d) || (w'.locked[d] < |w'.homes| && Gone(w', w'.homes[w'.locked[d]]))
  {
    var w' := Next(w, s);
    HomesGrow(w, s);
    if HasOwner(w, d) {
      var t :| Owns(w, t, d);
      assert OwnerOk(w, t, d) && ThreadOk(w, w.threads[t]);
      StepKeeps(w, s);
      if GivesUp(w, s, t, d) {
        AllDieTogether(w, s);
      } else {
        assert Owns(w', t, d);
      }
    } else {
      GoneStays(w, s, w.homes[w.locked[d]]);
    }
  }

  lemma HomesGrow(w: World, s: Step)
    ensures |w.homes| <= |Next(w, s).homes| && forall i :: 0 <= i < |w.homes| ==> Next(w, s).homes[i] == w.homes[i]
  {
  }

  lemma AllDieTogether(w: World, s: Step)
    ensures s.Die? && s.process in w.processes ==> Gone(Next(w, s), s.process)
  {
  }

  lemma {:induction false} RunKeeps(w: World, steps: seq<Step>)
    requires Inv(w) && Manned(w)
    ensures Inv(Run(w, steps)) && Manned(Run(w, steps))
    decreases |steps|
  {
    if steps != [] {
      StepKeeps(w, steps[0]);
      StepManned(w, steps[0]);
      RunKeeps(Next(w, steps[0]), steps[1..]);
    }
  }

  // ---------------------------------------------------------------- the theorems

  /** At most one thread of any process owns a directory, in every run; it holds the kernel's lock on it. */
  lemma MutualExclusion(steps: seq<Step>, t: nat, t': nat, d: string)
    requires Owns(Run(START, steps), t, d)
    ensures var w := Run(START, steps);
      && d in w.locked && w.locked[d] == w.threads[t].held[d].description && Depth(w, t, d) >= 1
      && (Owns(w, t', d) ==> t == t')
  {
    RunKeeps(START, steps);
    assert OwnerOk(Run(START, steps), t, d);
  }

  /** How a step moves the depth of an owner. */
  function Moved(w: World, s: Step, t: nat, d: string): int {
    if !Enabled(w, s) then 0 else if s == Enter(t, d) then 1 else if s == Exit(t, d) then -1 else 0
  }

  lemma DepthMoves(w: World, s: Step, t: nat, d: string)
    requires Inv(w) && Owns(w, t, d) && Owns(Next(w, s), t, d)
    ensures Depth(Next(w, s), t, d) == Depth(w, t, d) + Moved(w, s, t, d)
  {
    if Enabled(w, s) && (s.Enter? || s.Exit?) {
      OwnDepthMoves(w, s, t, d);
    } else if Enabled(w, s) && s.Grant? {
      assert Waits(w, s.thread) && WaitOk(w, s.thread);
    }
  }

  lemma OwnDepthMoves(w: World, s: Step, t: nat, d: string)
    requires Enabled(w, s) && (s.Enter? || s.Exit?) && Owns(w, t, d) && Owns(Next(w, s), t, d)
    ensures Depth(Next(w, s), t, d) == Depth(w, t, d) + Moved(w, s, t, d)
  {
    var own := Refresh(w, s.thread);
    assert Owns(own, t, d) && Depth(own, t, d) == Depth(w, t, d);
  }

  /**
    The owner keeps the directory until its own last exit, or the death of its process: no step of another
    thread, forked or not, releases it. Its depth counts its entries less its exits, the kernel's lock stays
    on its description, and the last exit unlocks the directory.
   */
  lemma KeptUntilLastExit(steps: seq<Step>, s: Step, t: nat, d: string)
    requires Owns(Run(START, steps), t, d)
    ensures var w := Run(START, steps);
      var w' := Next(w, s);
      && (!Owns(w', t, d) <==> GivesUp(w, s, t, d))
      && (s.Exit? && GivesUp(w, s, t, d) ==> d !in w'.locked)
      && (!GivesUp(w, s, t, d) ==>
            && d in w.locked && d in w'.locked && w'.locked[d] == w.locked[d]
            && Depth(w', t, d) == Depth(w, t, d) + Moved(w, s, t, d))
  {
    var w := Run(START, steps);
    var w' := Next(w, s);
    RunKeeps(START, steps);
    StepKeeps(w, s);
    assert OwnerOk(w, t, d);
    if Owns(w', t, d) {
      assert OwnerOk(w', t, d);
      LocksStay(w, s, d);
      DepthMoves(w, s, t, d);
    }
    assert ThreadOk(w, w.threads[t]);
    if s.Die? && s.process == w.threads[t].process {
      DeadOwnNothing(w, s, t, d);
    }
  }

  lemma DeadOwnNothing(w: World, s: Step, t: nat, d: string)
    requires t in w.threads && s.Die? && s.process in w.processes && s.process == w.threads[t].process
    ensures !Owns(Next(w, s), t, d)
  {
  }

  /** A forked child owns nothing, whatever its parent holds, and takes nothing from any owner. */
  lemma ForkInheritsNothing(steps: seq<Step>, s: Step, t: nat, d: string)
    requires s.Fork? && Enabled(Run(START, steps), s)
    ensures var w := Run(START, steps);
      && !Owns(Next(w, s), s.thread, d) && Next(w, s).locked == w.locked
      && (Owns(w, t, d) ==> Owns(Next(w, s), t, d) && Depth(Next(w, s), t, d) == Depth(w, t, d))
  {
    var w := Run(START, steps);
    RunKeeps(START, steps);
    StartKeeps(w, s);
    if Owns(w, t, d) {
      DepthMoves(w, s, t, d);
    }
  }

  /**
    The death of the owner's process unlocks the directory exactly when no other process has the description
    open; a child forked while it was held, and not heard of since, keeps the directory locked.
   */
  lemma DeathReleasesIff(steps: seq<Step>, t: nat, d: string)
    requires Owns(Run(START, steps), t, d)
    ensures var w := Run(START, steps);
      var process := w.threads[t].process;
      d in w.locked &&
      (d !in Next(w, Die(process)).locked <==> forall o :: o in w.open && o.1 == w.locked[d] ==> o.0 == process)
  {
    var w := Run(START, steps);
    RunKeeps(START, steps);
    assert OwnerOk(w, t, d) && ThreadOk(w, w.threads[t]);
    var w' := Next(w, Die(w.threads[t].process));
    assert forall o :: o in w'.open <==> o in w.open && o.0 != w.threads[t].process;
  }

  /** In every run, a directory is locked only while a thread owns it, or after the process that locked it has died. */
  lemma LockedMeansOwned(steps: seq<Step>, d: string)
    requires d in Run(START, steps).locked
    ensures var w := Run(START, steps);
      HasOwner(w, d) || (w.locked[d] < |w.homes| && Gone(w, w.homes[w.locked[d]]))
  {
    RunKeeps(START, steps);
  }
}
