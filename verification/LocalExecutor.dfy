/**
 The local executor (exec/local.go): tasks read the buffers of the tasks they
 depend on and leave their own output in a buffer.
 */
module LocalExecutor {
  import opened Rows
  import opened Reduction
  import opened Streams
  import opened Shuffle
  import opened SliceGraph
  import opened Compile
  import TaskGraph
  import Waitlist
  import Evaluation

  /** How the rows of a task are partitioned. */
  function PartitionOf<V>(task: Task<V>): Row<V> -> nat {
    At(task.partitioner, task.numPartition)
  }

  ghost predicate Partitions<V(!new)>(tasks: seq<Task<V>>) {
    forall t: nat :: t < |tasks| ==> tasks[t].numPartition > 0 && InRange(PartitionOf(tasks[t]), tasks[t].numPartition)
  }

  /** A buffer that holds the output of a task, by partition and in order. */
  ghost predicate Right<V(!new)>(tasks: seq<Task<V>>, t: nat, buf: seq<seq<seq<Row<V>>>>)
    requires Ordered(tasks) && t < |tasks|
  {
    && |buf| == tasks[t].numPartition
    && forall p: nat :: p < |buf| ==>
         Flatten(buf[p]) == PartOf(PartitionOf(tasks[t]), tasks[t].numPartition, Output(tasks, t), p)
  }

  lemma {:induction false} ChainIsFlatten<V(!new)>(q: seq<Reader<V>>)
    ensures Chain(q) == Flatten(Rests(q))
  {
    if q != [] {
      ChainIsFlatten(q[1..]);
      assert Rests(q)[1..] == Rests(q[1..]);
      FlattenFirst(Rests(q));
    }
  }

  ghost predicate DepAvailable<V(!new)>(tasks: seq<Task<V>>, d: TaskDep, stored: set<nat>)
    requires d.head < |tasks|
  {
    forall j: nat :: j < NumTask(tasks, d) ==> TaskOf(tasks, d, j) in stored
  }

  /** The buffers of all tasks that t depends on are there. */
  ghost predicate Available<V(!new)>(tasks: seq<Task<V>>, t: nat, stored: set<nat>)
    requires Ordered(tasks) && t < |tasks|
  {
    forall i: nat :: i < |tasks[t].deps| ==>
        DepBelow(tasks, tasks[t].deps[i], t) && DepAvailable(tasks, tasks[t].deps[i], stored)
  }

  lemma MoreAvailable<V(!new)>(tasks: seq<Task<V>>, t: nat, stored: set<nat>, more: set<nat>)
    requires Ordered(tasks) && t < |tasks| && stored <= more && Available(tasks, t, stored)
    ensures Available(tasks, t, more)
  {
    hide Ordered;
    assert forall i: nat :: i < |tasks[t].deps| && DepAvailable(tasks, tasks[t].deps[i], stored) ==>
             DepAvailable(tasks, tasks[t].deps[i], more);
  }

  /** Each of the tasks finds its inputs. */
  ghost predicate Fed<V(!new)>(tasks: seq<Task<V>>, ts: set<nat>, stored: set<nat>)
    requires Ordered(tasks)
  {
    forall t :: t in ts && t < |tasks| ==> Available(tasks, t, stored)
  }

  lemma StillFed<V(!new)>(tasks: seq<Task<V>>, ts: set<nat>, stored: set<nat>, more: set<nat>)
    requires Ordered(tasks) && stored <= more && Fed(tasks, ts, stored)
    ensures Fed(tasks, ts, more)
  {
    hide Ordered, Available;
    forall t | t in ts && t < |tasks|
      ensures Available(tasks, t, more)
    {
      MoreAvailable(tasks, t, stored, more);
    }
  }

  type States = map<nat, TaskGraph.TaskState>

  /** The buffer of every finished task is there. */
  ghost predicate Backed(st: States, stored: set<nat>) {
    forall t :: t in st && st[t].Ok? ==> t in stored
  }

  /** What the executor does with a task: start it, run it to its end, fail in the attempt, or give up its result. */
  datatype Move = Start(task: nat) | Execute(task: nat) | Crash(task: nat, fatal: bool) | Discard(task: nat) {

    predicate Possible(st: States, pending: set<nat>, stable: bool) {
      && task in st
      && match this
         case Start(t) => t in pending && st[t].Waiting?
         case Execute(t) => t in pending && st[t].InFlight()
         case Crash(t, _) => t in pending && st[t].InFlight()
         case Discard(t) => st[t].Ok? && !stable
    }

    /** The state that the task gets; `found` says that the inputs of the task were there. */
    function Outcome(found: bool): TaskGraph.TaskState {
      match this
      case Start(_) => TaskGraph.Running
      case Execute(_) => if found then TaskGraph.Ok else TaskGraph.Lost
      case Crash(_, fatal) => if fatal then TaskGraph.Err else TaskGraph.Lost
      case Discard(_) => TaskGraph.Lost
    }
  }

  /** Task states, the tasks with a buffer, and the tasks that were run without their inputs. */
  datatype Site = Site(st: States, stored: set<nat>, starved: set<nat>)

  /** One move, if it is possible: a task becomes Ok only together with its buffer. */
  ghost function Moved<V(!new)>(tasks: seq<Task<V>>, move: Move, site: Site, pending: set<nat>, stable: bool): Site
    requires Ordered(tasks)
  {
    var t := move.task;
    if t < |tasks| && move.Possible(site.st, pending, stable) then
      var found := move.Execute? ==> Available(tasks, t, site.stored);
      var stored := match move
        case Execute(_) => if found then site.stored + {t} else site.stored
        case Discard(_) => site.stored - {t}
        case _ => site.stored;
      var state := match move
        case Start(_) => TaskGraph.Running
        case Execute(_) => if found then TaskGraph.Ok else TaskGraph.Lost
        case Crash(_, fatal) => if fatal then TaskGraph.Err else TaskGraph.Lost
        case Discard(_) => TaskGraph.Lost;
      Site(site.st[t := state], stored, if found then site.starved else site.starved + {t})
    else
      site
  }

  ghost function Worked<V(!new)>(tasks: seq<Task<V>>, moves: seq<Move>, site: Site, pending: set<nat>,
                                 stable: bool): Site
    requires Ordered(tasks)
  {
    if moves == [] then site
    else Moved(tasks, moves[|moves| - 1], Worked(tasks, moves[..|moves| - 1], site, pending, stable), pending, stable)
  }

  /**
   What the executor does is what the evaluator allows for, and finished tasks
   have their buffers. If results are not lost, no task misses an input that
   found all of them before.
   */
  ghost predicate Sound<V(!new)>(tasks: seq<Task<V>>, site: Site, site': Site, pending: set<nat>, stable: bool)
    requires Ordered(tasks)
  {
    && Waitlist.MayBecome(site.st, pending, site'.st) && Backed(site'.st, site'.stored)
    && (stable ==> Evaluation.StaysOk(site.st, site'.st) && site.stored <= site'.stored)
    && (stable && Fed(tasks, pending, site.stored) ==> site'.starved == site.starved)
  }

  lemma {:induction false} WorkIsSound<V(!new)>(tasks: seq<Task<V>>, moves: seq<Move>, site: Site, pending: set<nat>,
                                                stable: bool)
    requires Ordered(tasks) && Backed(site.st, site.stored)
    ensures Sound(tasks, site, Worked(tasks, moves, site, pending, stable), pending, stable)
  {
    hide Ordered, Available;
    if moves != [] {
      var before, n := moves[..|moves| - 1], |moves| - 1;
      WorkIsSound(tasks, before, site, pending, stable);
      MoveIsSound(tasks, moves[n], site, Worked(tasks, before, site, pending, stable), pending, stable);
    }
  }

  lemma MoveIsSound<V(!new)>(tasks: seq<Task<V>>, move: Move, site: Site, now: Site, pending: set<nat>, stable: bool)
    requires Ordered(tasks) && Sound(tasks, site, now, pending, stable)
    ensures Sound(tasks, site, Moved(tasks, move, now, pending, stable), pending, stable)
  {
    hide Ordered, Available;
    if stable && Fed(tasks, pending, site.stored) {
      StillFed(tasks, pending, site.stored, now.stored);
    }
  }

  /** Tasks are only started and run. */
  ghost predicate OnlyRuns(moves: seq<Move>) {
    forall i :: 0 <= i < |moves| ==> moves[i].Start? || moves[i].Execute?
  }

  /** Nothing is lost or fails: tasks stay as they are, run, or are complete. */
  ghost predicate Onwards(st: States, st': States) {
    st'.Keys == st.Keys && forall t :: t in st ==> st'[t] == st[t] || st'[t].Running? || st'[t].Ok?
  }

  /** If results are not lost, tasks that find their inputs are not lost either. */
  lemma {:induction false} RunsGoOn<V(!new)>(tasks: seq<Task<V>>, moves: seq<Move>, site: Site, pending: set<nat>)
    requires Ordered(tasks) && Backed(site.st, site.stored) && OnlyRuns(moves) && Fed(tasks, pending, site.stored)
    ensures Onwards(site.st, Worked(tasks, moves, site, pending, true).st)
  {
    hide Ordered, Available, Fed, Sound;
    if moves != [] {
      var before, n := moves[..|moves| - 1], |moves| - 1;
      RunsGoOn(tasks, before, site, pending);
      WorkIsSound(tasks, before, site, pending, true);
      RunGoesOn(tasks, moves[n], site, Worked(tasks, before, site, pending, true), pending);
    }
  }

  lemma RunGoesOn<V(!new)>(tasks: seq<Task<V>>, move: Move, site: Site, now: Site, pending: set<nat>)
    requires Ordered(tasks) && Sound(tasks, site, now, pending, true) && Fed(tasks, pending, site.stored)
    requires (move.Start? || move.Execute?) && Onwards(site.st, now.st)
    ensures Onwards(site.st, Moved(tasks, move, now, pending, true).st)
  {
    hide Ordered, Available;
    StillFed(tasks, pending, site.stored, now.stored);
  }

  class Executor<V(!new)> {
    const tasks: seq<Task<V>>
    const chunk: nat
    const open: (nat, seq<Row<V>>) -> Reader<V>
    const emit: (nat, seq<Row<V>>) -> Reader<V>
    var buffers: map<nat, seq<seq<seq<Row<V>>>>>

    /** Whatever is stored is right. */
    ghost predicate Valid()
      reads this
    {
      && chunk > 0 && ReadsBack(open) && (forall t, rows :: emit(t, rows).rest == rows)
      && Ordered(tasks) && Partitions(tasks)
      && forall t :: t in buffers ==> t < |tasks| && Right(tasks, t, buffers[t])
    }

    constructor (tasks: seq<Task<V>>, chunk: nat, open: (nat, seq<Row<V>>) -> Reader<V>,
                 emit: (nat, seq<Row<V>>) -> Reader<V>)
      requires chunk > 0 && ReadsBack(open) && (forall t, rows :: emit(t, rows).rest == rows)
      requires Ordered(tasks) && Partitions(tasks)
      ensures Valid() && buffers == map[] && this.tasks == tasks
    {
      this.tasks, this.chunk, this.open, this.emit, buffers := tasks, chunk, open, emit, map[];
    }

    /** The readers of a dependency: one for each of its tasks, or all of them chained. */
    method DepReader(d: TaskDep, ghost bound: nat) returns (ok: bool, inputs: seq<seq<Row<V>>>)
      requires Valid() && DepBelow(tasks, d, bound)
      ensures ok <==> forall j: nat :: j < NumTask(tasks, d) ==> TaskOf(tasks, d, j) in buffers
      ensures ok ==> inputs == ReadDep(tasks, d, bound)
    {
      hide Ordered, Output, Flatten, PartOf, InRange;
      var q: seq<Reader<V>> := [];
      for j := 0 to NumTask(tasks, d)
        invariant |q| == j && forall i: nat :: i < j ==> TaskOf(tasks, d, i) in buffers && Patient(q[i])
        invariant forall i: nat :: i < j ==> q[i].rest == ReadParts(tasks, d, bound)[i]
      {
        var t := TaskOf(tasks, d, j);
        if t !in buffers {
          return false, [];
        }
        assert Right(tasks, t, buffers[t]);
        q := q + [open(j, Flatten(buffers[t][d.partition]))];
      }
      ok := true;
      assert Rests(q) == ReadParts(tasks, d, bound);
      if d.expand {
        inputs := seq(|q|, i requires 0 <= i < |q| => q[i].rest);
      } else {
        ChainIsFlatten(q);
        var rows := DrainChain(q, chunk);
        inputs := [rows];
      }
    }

    /** The readers of all dependencies of a task. */
    method DepReaders(t: nat) returns (ok: bool, inputs: seq<seq<Row<V>>>)
      requires Valid() && t < |tasks|
      ensures ok <==> Available(tasks, t, buffers.Keys)
      ensures ok ==> inputs == ReadDeps(tasks, tasks[t].deps, t)
    {
      hide ReadDep, Partitions;
      inputs := [];
      var deps := tasks[t].deps;
      for i := 0 to |deps|
        invariant inputs == ReadDeps(tasks, deps[..i], t)
        invariant forall k: nat :: k < i ==> DepAvailable(tasks, deps[k], buffers.Keys)
      {
        var rows;
        ok, rows := DepReader(deps[i], t);
        if !ok {
          assert !DepAvailable(tasks, deps[i], buffers.Keys);
          return false, [];
        }
        assert deps[..i + 1][..i] == deps[..i];
        inputs := inputs + rows;
      }
      assert deps[..|deps|] == deps;
      ok := true;
    }

    /** Runs a task: it fails if an input is missing, and otherwise its buffer is stored. */
    method Run(t: nat) returns (ok: bool)
      requires Valid() && t < |tasks|
      modifies this
      ensures Valid() && (ok <==> Available(tasks, t, old(buffers.Keys)))
      ensures buffers.Keys == old(buffers.Keys) + (if ok then {t} else {})
      ensures forall u :: u in old(buffers) && (u != t || !ok) ==> buffers[u] == old(buffers)[u]
    {
      hide Ordered, ReadDeps, PartOf, Flatten;
      var inputs;
      ok, inputs := DepReaders(t);
      if ok {
        var out := tasks[t].run(inputs);
        assert out == Output(tasks, t);
        var buf := BufferOutput(emit(t, out), PartitionOf(tasks[t]), tasks[t].numPartition, chunk);
        buffers := buffers[t := buf[..]];
      }
    }

    /** The buffer of a task is given up. */
    method Discard(t: nat)
      requires Valid()
      modifies this
      ensures Valid() && buffers == old(buffers) - {t}
    {
      buffers := buffers - {t};
    }

    /** One move, if it is possible. */
    method Do(move: Move, st: States, pending: set<nat>, stable: bool, ghost starved: set<nat>)
      returns (later: States, ghost starved': set<nat>)
      requires Valid()
      modifies this
      ensures Valid()
      ensures Site(later, buffers.Keys, starved') ==
              Moved(tasks, move, old(Site(st, buffers.Keys, starved)), pending, stable)
    {
      hide Ordered, Partitions, ReadsBack, Right, Available;
      later, starved' := st, starved;
      var t := move.task;
      if t >= |tasks| || !move.Possible(st, pending, stable) {
        return;
      }
      var found := true;
      match move {
        case Execute(_) =>
          found := Run(t);
          starved' := if found then starved else starved + {t};
        case Discard(_) =>
          Discard(t);
        case _ =>
      }
      later := st[t := move.Outcome(found)];
    }

    /** Any number of moves. */
    method Work(moves: seq<Move>, st: States, pending: set<nat>, stable: bool, ghost starved: set<nat>)
      returns (later: States, ghost starved': set<nat>)
      requires Valid()
      modifies this
      ensures Valid()
      ensures Site(later, buffers.Keys, starved') ==
              Worked(tasks, moves, old(Site(st, buffers.Keys, starved)), pending, stable)
    {
      hide Ordered, Partitions, ReadsBack, Right, Available, Moved;
      later, starved' := st, starved;
      for i := 0 to |moves|
        invariant Valid()
        invariant Site(later, buffers.Keys, starved') ==
                  Worked(tasks, moves[..i], old(Site(st, buffers.Keys, starved)), pending, stable)
      {
        later, starved' := Do(moves[i], later, pending, stable, starved');
        assert moves[..i + 1][..i] == moves[..i];
      }
      assert moves[..|moves|] == moves;
    }
  }

  /** Compiled tasks partition properly, if the partitioners of the slices do. */
  lemma KnownPartitions<V(!new)>(g: Graph<V>, tasks: seq<Task<V>>)
    requires Assigns(g) && AllKnown(g, tasks)
    ensures Partitions(tasks)
  {
    forall t: nat | t < |tasks|
      ensures tasks[t].numPartition > 0 && InRange(PartitionOf(tasks[t]), tasks[t].numPartition)
    {
      assert KnownAt(g, tasks[t]);
      var p :| Known(g, p) && tasks[t].partitioner == PartitionerOf(g, p);
      if p.Some? {
        var s: nat, i: nat :| s < |g.slices| && i < |g.slices[s].deps| && g.slices[s].deps[i].partitioner == p;
        assert InRangeAlways(p);
      }
    }
  }
}
