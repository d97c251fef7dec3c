/**
  Creating an envelope file by several writers at once: each looks whether the file exists, writes a
  temporary file, and links it to the name; a link to a name that exists fails. V is the type of contents.
 */
module Envelopes {
  import opened Wrappers

  datatype Phase = Starting | Absent | Written | Succeeded | Conflicted

  datatype Creator<+V> = Creator(value: V, phase: Phase)

  datatype World<+V> = World(file: Option<V>, creators: map<nat, Creator<V>>)

  /** A creator begins under a new number, takes its next operation, or dies. */
  datatype Step<+V> = Begin(id: nat, value: V) | Act(id: nat) | Die(id: nat)

  function Nothing<V>(): World<V> {
    World(None, map[])
  }

  function Compared<V(==)>(file: V, value: V): Phase {
    if file == value then Succeeded else Conflicted
  }

  function Advance<V(==)>(w: World<V>, id: nat): World<V>
    requires id in w.creators
  {
    var c := w.creators[id];
    match c.phase
    case Starting =>
      w.(creators := w.creators[id := c.(phase := if w.file.Some? then Compared(w.file.value, c.value) else Absent)])
    case Absent => w.(creators := w.creators[id := c.(phase := Written)])
    case Written =>
      World(if w.file.Some? then w.file else Some(c.value),
            w.creators[id := c.(phase := if w.file.Some? then Compared(w.file.value, c.value) else Succeeded)])
    case _ => w
  }

  function Next<V(==)>(w: World<V>, s: Step<V>): World<V> {
    match s
    case Begin(id, value) => if id in w.creators then w else w.(creators := w.creators[id := Creator(value, Starting)])
    case Act(id) => if id in w.creators then Advance(w, id) else w
    case Die(id) => w.(creators := w.creators - {id})
  }

  function Run<V(==)>(w: World<V>, steps: seq<Step<V>>): World<V>
    decreases |steps|
  {
    if steps == [] then w else Run(Next(w, steps[0]), steps[1..])
  }

  /** Those that finished agree with the file. */
  ghost predicate Agreed<V>(w: World<V>) {
    forall id :: id in w.creators ==>
      && (w.creators[id].phase == Succeeded ==> w.file == Some(w.creators[id].value))
      && (w.creators[id].phase == Conflicted ==> w.file.Some? && w.file.value != w.creators[id].value)
  }

  lemma {:induction false} RunAgrees<V>(w: World<V>, steps: seq<Step<V>>)
    requires Agreed(w)
    ensures Agreed(Run(w, steps)) && (w.file.Some? ==> Run(w, steps).file == w.file)
    decreases |steps|
  {
    if steps != [] {
      assert Agreed(Next(w, steps[0]));
      RunAgrees(Next(w, steps[0]), steps[1..]);
    }
  }

  /**
    Write once, in every interleaving of any creators: a visible content never changes; a creator has
    succeeded only if the file holds its value and is in conflict only if it holds another, and so any two
    that succeeded had equal values, however they overlapped.
   */
  lemma WrittenOnce<V>(steps: seq<Step<V>>, more: seq<Step<V>>, id: nat, id': nat)
    ensures var w := Run(Nothing<V>(), steps);
      var w' := Run(w, more);
      && (w.file.Some? ==> w'.file == w.file)
      && (id in w'.creators && w'.creators[id].phase == Succeeded ==> w'.file == Some(w'.creators[id].value))
      && (id in w'.creators && w'.creators[id].phase == Conflicted ==>
            w'.file.Some? && w'.file.value != w'.creators[id].value)
      && (id in w'.creators && id' in w'.creators && w'.creators[id].phase == Succeeded ==>
            && (w'.creators[id'].phase == Succeeded ==> w'.creators[id'].value == w'.creators[id].value)
            && (w'.creators[id'].phase == Conflicted ==> w'.creators[id'].value != w'.creators[id].value))
  {
    RunAgrees(Nothing<V>(), steps);
    RunAgrees(Run(Nothing<V>(), steps), more);
  }

  /** A creator that acts three times has finished; and what is visible was brought by a creator. */
  lemma ThreeActsFinish<V>(w: World<V>, id: nat)
    requires Agreed(w) && id in w.creators
    ensures var w' := Run(w, [Act(id), Act(id), Act(id)]);
      && id in w'.creators && w'.creators[id].value == w.creators[id].value && w'.file.Some?
      && w'.creators[id].phase == (if w'.file.value == w.creators[id].value then Succeeded else Conflicted)
      && w'.file == if w.file.Some? then w.file else Some(w.creators[id].value)
  {
    var steps: seq<Step<V>> := [Act(id), Act(id), Act(id)];
    var w1 := Next(w, Act(id));
    var w2 := Next(w1, Act(id));
    assert Run(w, steps) == Run(w1, steps[1..]) == Run(w2, steps[2..]) by {
      assert steps[1..][1..] == steps[2..];
    }
    assert Run(w2, steps[2..]) == Next(w2, Act(id));
    RunAgrees(w, steps);
  }
}
