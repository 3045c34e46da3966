/**
 Compiling a slice into tasks (exec/compile.go): slices are pipelined into
 tasks, shuffles are read by partition, and compilations are memoized. The
 tasks compute what slice-by-slice evaluation does.
 */
module Compile {
  import opened Rows
  import opened Reduction
  import opened Shuffle
  import opened SliceGraph
  import TaskGraph

  /** A dependency of a task: the tasks of the phase of its head, and the partition to read. */
  datatype TaskDep = TaskDep(head: nat, partition: nat, expand: bool)

  type Computation<!V> = seq<seq<Row<V>>> -> seq<Row<V>>

  datatype Task<!V> = Task(slice: nat, shard: nat, numPartition: nat, partitioner: Partitioner<V>,
                           deps: seq<TaskDep>, run: Computation<V>, group: seq<nat>)

  // What tasks compute. Tasks refer to each other by their position.

  function NumTask<V>(tasks: seq<Task<V>>, d: TaskDep): nat
    requires d.head < |tasks|
  {
    if |tasks[d.head].group| > 0 then |tasks[d.head].group| else 1
  }

  function TaskOf<V>(tasks: seq<Task<V>>, d: TaskDep, i: nat): nat
    requires d.head < |tasks| && i < NumTask(tasks, d)
  {
    if i == 0 then d.head else tasks[d.head].group[i]
  }

  /** A dependency on earlier tasks only, on the head of their phase, and on a partition that each of them has. */
  ghost predicate DepBelow<V>(tasks: seq<Task<V>>, d: TaskDep, bound: nat) {
    && d.head < bound <= |tasks| && d.partition < tasks[d.head].numPartition
    && (tasks[d.head].group != [] ==> tasks[d.head].group[0] == d.head)
    && forall i :: 0 <= i < |tasks[d.head].group| ==>
         tasks[d.head].group[i] < bound && d.partition < tasks[tasks[d.head].group[i]].numPartition
  }

  ghost predicate Ordered<V>(tasks: seq<Task<V>>) {
    forall t: nat, i: nat :: t < |tasks| && i < |tasks[t].deps| ==> DepBelow(tasks, tasks[t].deps[i], t)
  }

  /** The rows a task puts out, over all partitions. */
  ghost function Output<V>(tasks: seq<Task<V>>, t: nat): seq<Row<V>>
    requires Ordered(tasks) && t < |tasks|
    decreases t, 2, 0
  {
    tasks[t].run(ReadDeps(tasks, tasks[t].deps, t))
  }

  ghost predicate DepsBelow<V>(tasks: seq<Task<V>>, deps: seq<TaskDep>, bound: nat) {
    bound <= |tasks| && forall i: nat :: i < |deps| ==> DepBelow(tasks, deps[i], bound)
  }

  ghost function ReadDeps<V>(tasks: seq<Task<V>>, deps: seq<TaskDep>, bound: nat): seq<seq<Row<V>>>
    requires Ordered(tasks) && DepsBelow(tasks, deps, bound)
    decreases bound, 1, |deps|
  {
    if deps == [] then []
    else
      var n := |deps| - 1;
      ReadDeps(tasks, deps[..n], bound) + ReadDep(tasks, deps[n], bound)
  }

  /** The readers an executor gives a task for a dependency. */
  ghost function ReadDep<V>(tasks: seq<Task<V>>, d: TaskDep, bound: nat): seq<seq<Row<V>>>
    requires Ordered(tasks) && DepBelow(tasks, d, bound)
    decreases bound, 0, 1
  {
    var parts := ReadParts(tasks, d, bound);
    if d.expand then parts else [Flatten(parts)]
  }

  /** The partition of each task of the dependency. */
  ghost function ReadParts<V>(tasks: seq<Task<V>>, d: TaskDep, bound: nat): (parts: seq<seq<Row<V>>>)
    requires Ordered(tasks) && DepBelow(tasks, d, bound)
    decreases bound, 0, 0
  {
    seq(NumTask(tasks, d), j requires 0 <= j < NumTask(tasks, d) =>
          var t := TaskOf(tasks, d, j);
          PartOf(At(tasks[t].partitioner, tasks[t].numPartition), tasks[t].numPartition, Output(tasks, t), d.partition))
  }

  // Adding tasks does not change what the others compute.

  lemma {:induction false} OutputStays<V>(tasks: seq<Task<V>>, tasks': seq<Task<V>>, t: nat)
    requires Ordered(tasks) && Ordered(tasks') && tasks <= tasks' && t < |tasks|
    ensures Output(tasks', t) == Output(tasks, t)
    decreases t, 2, 0
  {
    assert tasks[t] == tasks'[t];
    DepsStay(tasks, tasks', tasks[t].deps, t, t);
  }

  lemma {:induction false} DepsStay<V>(tasks: seq<Task<V>>, tasks': seq<Task<V>>, deps: seq<TaskDep>, bound: nat,
                                       bound': nat)
    requires Ordered(tasks) && Ordered(tasks') && tasks <= tasks'
    requires DepsBelow(tasks, deps, bound) && bound <= bound' <= |tasks'|
    ensures DepsBelow(tasks', deps, bound') && ReadDeps(tasks', deps, bound') == ReadDeps(tasks, deps, bound)
    decreases bound, 1, |deps|
  {
    if deps != [] {
      var n := |deps| - 1;
      DepsStay(tasks, tasks', deps[..n], bound, bound');
      DepStays(tasks, tasks', deps[n], bound, bound');
    }
  }

  lemma {:induction false} DepStays<V>(tasks: seq<Task<V>>, tasks': seq<Task<V>>, d: TaskDep, bound: nat, bound': nat)
    requires Ordered(tasks) && Ordered(tasks') && tasks <= tasks'
    requires DepBelow(tasks, d, bound) && bound <= bound' <= |tasks'|
    ensures DepBelow(tasks', d, bound') && ReadDep(tasks', d, bound') == ReadDep(tasks, d, bound)
    decreases bound, 0, 0
  {
    assert tasks[d.head] == tasks'[d.head];
    forall j: nat | j < NumTask(tasks, d)
      ensures Output(tasks', TaskOf(tasks', d, j)) == Output(tasks, TaskOf(tasks, d, j))
    {
      OutputStays(tasks, tasks', TaskOf(tasks, d, j));
    }
    assert ReadParts(tasks', d, bound') == ReadParts(tasks, d, bound);
  }

  // Pipelining.

  /** Slice a reads only shard by shard from slice b, which need not be materialized. */
  ghost predicate Pipes<V>(g: Graph<V>, a: nat, b: nat)
    requires a < |g.slices| && b < |g.slices|
  {
    var deps := g.slices[a].deps;
    |deps| == 1 && !deps[0].shuffle && deps[0].slice == b && !g.slices[b].materialize
  }

  ghost predicate Pipelined<V>(g: Graph<V>, slices: seq<nat>) {
    && slices != [] && (forall i :: 0 <= i < |slices| ==> slices[i] < |g.slices|)
    && forall i :: 0 <= i < |slices| - 1 ==> Pipes(g, slices[i], slices[i + 1])
  }

  /** A pipeline from s on; all its slices have the same number of shards. */
  ghost predicate PipelinedFrom<V>(g: Graph<V>, s: nat, slices: seq<nat>)
    requires s < |g.slices|
  {
    && Pipelined(g, slices) && slices[0] == s
    && forall i :: 0 <= i < |slices| ==> slices[i] <= s && g.slices[slices[i]].numShard == g.slices[s].numShard
  }

  ghost predicate PipelineEnds<V>(g: Graph<V>, a: nat)
    requires a < |g.slices|
  {
    forall b: nat :: b < |g.slices| ==> !Pipes(g, a, b)
  }

  lemma PipelineStep<V>(g: Graph<V>, s: nat, slices: seq<nat>, b: nat)
    requires g.WellFormed() && s < |g.slices| && b < |g.slices| && PipelinedFrom(g, s, slices)
    requires Pipes(g, slices[|slices| - 1], b)
    ensures PipelinedFrom(g, s, slices + [b])
  {
    var a := slices[|slices| - 1];
    assert g.Fits(a, g.slices[a].deps[0]);
    forall i | 0 <= i < |slices|
      ensures Pipes(g, (slices + [b])[i], (slices + [b])[i + 1])
    {
      if i < |slices| - 1 {
        assert Pipes(g, slices[i], slices[i + 1]);
      }
    }
  }

  /**
   The slices that may be pipelined from s on. They end at the first slice
   that has several dependencies or none, a shuffle, or a dependency that is
   to be materialized.
   */
  method Pipeline<V>(g: Graph<V>, s: nat) returns (slices: seq<nat>)
    requires g.WellFormed() && s < |g.slices|
    ensures PipelinedFrom(g, s, slices)
    ensures PipelineEnds(g, slices[|slices| - 1])
  {
    var slice: nat := s;
    slices := [];
    while true
      invariant slice < |g.slices| && PipelinedFrom(g, s, slices + [slice])
      decreases slice
    {
      slices := slices + [slice];
      var deps := g.slices[slice].deps;
      if |deps| != 1 || deps[0].shuffle {
        return;
      }
      assert g.Fits(slice, deps[0]);
      if g.slices[deps[0].slice].materialize {
        return;
      }
      PipelineStep(g, s, slices, deps[0].slice);
      slice := deps[0].slice;
    }
  }

  /** The readers of the slices from k on, composed. */
  ghost function Composed<V>(g: Graph<V>, slices: seq<nat>, k: nat, shard: nat, inputs: seq<seq<Row<V>>>): seq<Row<V>>
    requires k < |slices| && forall i :: 0 <= i < |slices| ==> slices[i] < |g.slices|
    decreases |slices| - k
  {
    var reader := g.slices[slices[k]].reader;
    if k == |slices| - 1 then reader(shard, inputs)
    else reader(shard, [Composed(g, slices, k + 1, shard, inputs)])
  }

  /** Run on the inputs of the last slice, the composition gives the shard of the first. */
  lemma {:induction false} ComposedIsShard<V>(g: Graph<V>, slices: seq<nat>, k: nat, shard: nat)
    requires g.WellFormed() && Pipelined(g, slices) && k < |slices|
    ensures var last := slices[|slices| - 1];
            Composed(g, slices, k, shard, Inputs(g, last, shard, |g.slices[last].deps|)) == Shard(g, slices[k], shard)
    decreases |slices| - k
  {
    if k < |slices| - 1 {
      ComposedIsShard(g, slices, k + 1, shard);
      assert Pipes(g, slices[k], slices[k + 1]);
      assert Inputs(g, slices[k], shard, 0) == [];
      assert Inputs(g, slices[k], shard, 1) == Input(g, slices[k], shard, 0);
    }
  }

  /** Reads the input directly, or the output of the previous pipelined slice. */
  function Pipe<V>(reader: (nat, seq<seq<Row<V>>>) -> seq<Row<V>>, shard: nat,
                   prev: Option<Computation<V>>): Computation<V> {
    match prev
    case None => (inputs: seq<seq<Row<V>>>) => reader(shard, inputs)
    case Some(f) => (inputs: seq<seq<Row<V>>>) => reader(shard, [f(inputs)])
  }

  ghost predicate Computes<V(!new)>(run: Computation<V>, g: Graph<V>, slices: seq<nat>, k: nat, shard: nat)
    requires k < |slices| && forall i :: 0 <= i < |slices| ==> slices[i] < |g.slices|
  {
    forall inputs :: run(inputs) == Composed(g, slices, k, shard, inputs)
  }

  /** Composes the readers of pipelined slices, shard by shard, from the last slice to the first. */
  method ComposeReaders<V(!new)>(g: Graph<V>, slices: seq<nat>, n: nat) returns (runs: seq<Option<Computation<V>>>)
    requires Pipelined(g, slices)
    ensures |runs| == n && forall j: nat :: j < n ==> runs[j].Some? && Computes(runs[j].value, g, slices, 0, j)
  {
    runs := seq(n, _ => None);
    var i := |slices| - 1;
    while i >= 0
      invariant -1 <= i < |slices| && |runs| == n
      invariant i == |slices| - 1 ==> forall j: nat :: j < n ==> runs[j].None?
      invariant i < |slices| - 1 ==> forall j: nat :: j < n ==>
                  runs[j].Some? && Computes(runs[j].value, g, slices, i + 1, j)
    {
      var reader, before := g.slices[slices[i]].reader, runs;
      for j := 0 to n
        invariant |runs| == n && runs[j..] == before[j..]
        invariant forall m: nat :: m < j ==> runs[m].Some? && Computes(runs[m].value, g, slices, i, m)
      {
        assert runs[j] == before[j];
        runs := runs[j := Some(Pipe(reader, j, runs[j]))];
      }
      i := i - 1;
    }
  }

  // Phases.

  /** The tasks of a group lie next to each other and name the same group. */
  ghost predicate GroupedAt<V>(tasks: seq<Task<V>>, t: nat)
    requires t < |tasks|
  {
    var group := tasks[t].group;
    group != [] ==>
      && group[0] <= t < group[0] + |group| <= |tasks|
      && forall i :: 0 <= i < |group| ==> group[i] == group[0] + i && tasks[group[0] + i].group == group
  }

  /** Where the phase of a task starts. */
  function PhaseStart<V>(tasks: seq<Task<V>>, t: nat): nat
    requires t < |tasks|
  {
    if tasks[t].group == [] then t else tasks[t].group[0]
  }

  ghost predicate Phased<V>(tasks: seq<Task<V>>) {
    && (forall t: nat :: t < |tasks| ==> GroupedAt(tasks, t))
    && (forall t: nat, i: nat :: t < |tasks| && i < |tasks[t].deps| ==>
        DepBelow(tasks, tasks[t].deps[i], PhaseStart(tasks, t)))
  }

  /** The task graph as the evaluator sees it. */
  function GraphOf<V>(tasks: seq<Task<V>>): TaskGraph.Graph {
    TaskGraph.Graph(map t: nat | t < |tasks| :: NodeOf(tasks[t]), (t: nat) => t)
  }

  function NodeOf<V>(task: Task<V>): TaskGraph.Node {
    TaskGraph.Node(task.group, seq(|task.deps|, i requires 0 <= i < |task.deps| => task.deps[i].head))
  }

  /** Compiled tasks form an acyclic graph of phases, which is what the evaluator asks for. */
  lemma PhasedIsWellFormed<V>(tasks: seq<Task<V>>)
    requires Phased(tasks)
    ensures GraphOf(tasks).WellFormed()
  {
    var g := GraphOf(tasks);
    forall t | t in g.nodes
      ensures g.GroupOk(t)
    {
      assert GroupedAt(tasks, t);
      var group := g.nodes[t].group;
      if group != [] {
        assert group[t - group[0]] == t;
        forall u | u in group
          ensures u in g.nodes && g.nodes[u].group == group
        {
          var i :| 0 <= i < |group| && group[i] == u;
          assert tasks[group[0] + i].group == group;
        }
      }
    }
    forall t | t in g.nodes
      ensures g.DepsOk(t)
    {
      assert g.GroupOk(t);
      forall h | h in g.nodes[t].deps
        ensures h in g.nodes && g.Head(h) == h && g.rank(h) < g.rank(g.Head(t))
      {
        var i: nat :| i < |tasks[t].deps| && tasks[t].deps[i].head == h;
        assert DepBelow(tasks, tasks[t].deps[i], PhaseStart(tasks, t));
      }
    }
  }

  /** The tasks that are read for a dependency are exactly the phase that the evaluator waits for. */
  lemma TasksRead<V>(tasks: seq<Task<V>>, t: nat, i: nat)
    requires GraphOf(tasks).WellFormed() && t < |tasks| && i < |tasks[t].deps|
    ensures var d := tasks[t].deps[i];
            && d.head in GraphOf(tasks).Deps(t) && d.head < |tasks|
            && seq(NumTask(tasks, d), j requires 0 <= j < NumTask(tasks, d) => TaskOf(tasks, d, j))
               == GraphOf(tasks).Phase(d.head)
  {
    hide TaskGraph.Graph.WellFormed;
    var g, d := GraphOf(tasks), tasks[t].deps[i];
    assert g.Deps(t)[i] == d.head;
    TaskGraph.DependencyIsPhase(g, t, d.head);
    assert g.NumTask(d.head) == NumTask(tasks, d);
    assert forall j: nat :: j < NumTask(tasks, d) ==> g.DepTask(d.head, j) == TaskOf(tasks, d, j);
  }

  // Compilation.

  /** How the output of tasks is partitioned; without a shuffle, not at all. */
  datatype Partitioning<!V> = Partitioning(numPartition: nat, partitioner: Option<Partitioner<V>>) {
    predicate IsShuffle() {
      numPartition != 0
    }

    function NumPartition(): nat {
      if numPartition == 0 then 1 else numPartition
    }
  }

  /** Tasks for a slice: each computes its shard, partitioned as required, and those of a shuffle form a phase. */
  ghost predicate Compiled<V(!new)>(g: Graph<V>, tasks: seq<Task<V>>, s: nat, part: Partitioning<V>, ts: seq<nat>)
    requires g.WellFormed() && Ordered(tasks) && s < |g.slices|
  {
    && |ts| == g.slices[s].numShard
    && forall j: nat :: j < |ts| ==>
         && ts[j] < |tasks| && tasks[ts[j]].slice == s && tasks[ts[j]].shard == j
         && Output(tasks, ts[j]) == Shard(g, s, j)
         && tasks[ts[j]].numPartition == part.NumPartition()
         && tasks[ts[j]].partitioner == PartitionerOf(g, part.partitioner)
         && tasks[ts[j]].group == if part.IsShuffle() then ts else []
  }

  lemma CompiledStays<V(!new)>(g: Graph<V>, tasks: seq<Task<V>>, tasks': seq<Task<V>>, s: nat, part: Partitioning<V>,
                               ts: seq<nat>)
    requires g.WellFormed() && Ordered(tasks) && Ordered(tasks') && tasks <= tasks' && s < |g.slices|
    requires Compiled(g, tasks, s, part, ts)
    ensures Compiled(g, tasks', s, part, ts)
  {
    hide Output, Shard;
    forall j: nat | j < |ts|
      ensures Output(tasks', ts[j]) == Output(tasks, ts[j]) && tasks'[ts[j]] == tasks[ts[j]]
    {
      OutputStays(tasks, tasks', ts[j]);
    }
  }

  /** Reading a dependency of compiled tasks gives the input of the slice. */
  lemma ReadsInput<V(!new)>(g: Graph<V>, tasks: seq<Task<V>>, s: nat, i: nat, ts: seq<nat>, shard: nat)
    requires g.WellFormed() && Ordered(tasks) && s < |g.slices| && i < |g.slices[s].deps| &&
             shard < g.slices[s].numShard
    requires g.slices[s].deps[i].slice < s
    requires var d := g.slices[s].deps[i];
             Compiled(g, tasks, d.slice, if d.shuffle then Partitioning(g.slices[s].numShard, d.partitioner)
                      else Partitioning(0, None), ts)
    ensures var d := g.slices[s].deps[i];
            var td := if d.shuffle then TaskDep(ts[0], shard, d.expand) else TaskDep(ts[shard], 0, d.expand);
            DepBelow(tasks, td, |tasks|) && ReadDep(tasks, td, |tasks|) == Input(g, s, shard, i)
  {
    hide Output, Shard;
    var d := g.slices[s].deps[i];
    assert g.Fits(s, d);
    if d.shuffle {
      var td := TaskDep(ts[0], shard, d.expand);
      assert tasks[ts[0]].group == ts;
      assert ReadParts(tasks, td, |tasks|) == Parts(g, d, s, shard);
    } else {
      var td := TaskDep(ts[shard], 0, d.expand);
      assert tasks[ts[shard]].group == [];
      var rows := Shard(g, d.slice, shard);
      PartOfOne(At(tasks[ts[shard]].partitioner, 1), rows);
      assert ReadParts(tasks, td, |tasks|) == [rows];
      assert [rows][..0] == [] && Flatten([rows]) == rows;
    }
  }

  /** Dependencies read so far, one list for each shard, and the inputs they stand for. */
  ghost predicate DepsRead<V(!new)>(g: Graph<V>, tasks: seq<Task<V>>, s: nat, k: nat, deps: seq<seq<TaskDep>>)
    requires g.WellFormed() && Ordered(tasks) && s < |g.slices| && k <= |g.slices[s].deps|
  {
    && |deps| == g.slices[s].numShard
    && forall j: nat :: j < |deps| ==>
         DepsBelow(tasks, deps[j], |tasks|) && ReadDeps(tasks, deps[j], |tasks|) == Inputs(g, s, j, k)
  }

  lemma NoDepsRead<V(!new)>(g: Graph<V>, tasks: seq<Task<V>>, s: nat, deps: seq<seq<TaskDep>>)
    requires g.WellFormed() && Ordered(tasks) && s < |g.slices| && |deps| == g.slices[s].numShard
    requires forall j :: 0 <= j < |deps| ==> deps[j] == []
    ensures DepsRead(g, tasks, s, 0, deps)
  {
  }

  /** The dependency of shard j on the compiled tasks of dependency i. */
  function DepOn<V>(d: Dep<V>, ts: seq<nat>, j: nat): TaskDep
    requires ts != [] && (!d.shuffle ==> j < |ts|)
  {
    if d.shuffle then TaskDep(ts[0], j, d.expand) else TaskDep(ts[j], 0, d.expand)
  }

  /** The partitioning a dependency asks for. */
  function Wanted<V>(d: Dep<V>, n: nat): Partitioning<V> {
    if d.shuffle then Partitioning(n, d.partitioner) else Partitioning(0, None)
  }

  /** A partitioner of the graph: the default one, or that of some dependency. */
  ghost predicate Known<V>(g: Graph<V>, p: Option<Partitioner<V>>) {
    p.Some? ==>
      exists s: nat, i: nat :: s < |g.slices| && i < |g.slices[s].deps| && g.slices[s].deps[i].partitioner == p
  }

  /** Tasks partition their output as some dependency asks for. */
  ghost predicate KnownAt<V(!new)>(g: Graph<V>, task: Task<V>) {
    task.numPartition > 0 && exists p :: Known(g, p) && task.partitioner == PartitionerOf(g, p)
  }

  ghost predicate AllKnown<V(!new)>(g: Graph<V>, tasks: seq<Task<V>>) {
    forall t: nat :: t < |tasks| ==> KnownAt(g, tasks[t])
  }

  /** Nothing that was compiled is compiled again. */
  ghost predicate Remembers(memo: map<(nat, nat), seq<nat>>, memo': map<(nat, nat), seq<nat>>) {
    forall key :: key in memo ==> key in memo' && memo'[key] == memo[key]
  }

  class Compiler<V(!new)> {
    const g: Graph<V>
    var tasks: seq<Task<V>>
    var memo: map<(nat, nat), seq<nat>>

    ghost predicate Valid()
      reads this
    {
      && g.WellFormed() && Ordered(tasks) && Phased(tasks) && AllKnown(g, tasks)
      && forall key :: key in memo ==>
           key.0 < |g.slices| && Compiled(g, tasks, key.0, Partitioning(key.1, None), memo[key])
    }

    constructor (g: Graph<V>)
      requires g.WellFormed()
      ensures Valid() && this.g == g && tasks == [] && memo == map[]
    {
      this.g := g;
      tasks, memo := [], map[];
    }

    /**
     Compiles a slice. Tasks are reused for the same slice and number of
     partitions, unless there is a partitioner.
     */
    method Compile(s: nat, part: Partitioning<V>) returns (ts: seq<nat>)
      requires Valid() && s < |g.slices| && Known(g, part.partitioner)
      modifies this
      ensures Valid() && old(tasks) <= tasks && Compiled(g, tasks, s, part, ts) && Remembers(old(memo), memo)
      ensures part.partitioner.None? ==> (s, part.numPartition) in memo && memo[(s, part.numPartition)] == ts
      ensures part.partitioner.None? && (s, part.numPartition) in old(memo) ==>
                tasks == old(tasks) && ts == old(memo)[(s, part.numPartition)]
      decreases s, 1
    {
      hide Compiled, Ordered, Phased, AllKnown, Known, DepsRead, Computes, Pipes;
      if part.partitioner.None? && (s, part.numPartition) in memo {
        return memo[(s, part.numPartition)];
      }
      var slices := Pipeline(g, s);
      var n := g.slices[s].numShard;
      var last := slices[|slices| - 1];
      var deps: seq<seq<TaskDep>> := seq(n, _ => []);
      NoDepsRead(g, tasks, last, deps);
      for i := 0 to |g.slices[last].deps|
        invariant Valid() && old(tasks) <= tasks && |deps| == n && DepsRead(g, tasks, last, i, deps) &&
                  Remembers(old(memo), memo)
      {
        deps := CompileDep(last, i, deps);
      }
      var runs := ComposeReaders(g, slices, n);
      ts := AddTasks(s, part, slices, deps, runs);
      if part.partitioner.None? {
        memo := memo[(s, part.numPartition) := ts];
      }
    }

    /** Compiles one dependency; each shard reads its own shard, or its partition of all of them. */
    method CompileDep(s: nat, i: nat, deps: seq<seq<TaskDep>>) returns (deps': seq<seq<TaskDep>>)
      requires Valid() && s < |g.slices| && i < |g.slices[s].deps| && DepsRead(g, tasks, s, i, deps)
      modifies this
      ensures Valid() && old(tasks) <= tasks && |deps'| == |deps| && DepsRead(g, tasks, s, i + 1, deps')
      ensures Remembers(old(memo), memo)
      decreases s, 0
    {
      hide Compiled, Ordered, Phased, AllKnown, DepsRead;
      var d, n := g.slices[s].deps[i], g.slices[s].numShard;
      assert g.Fits(s, d);
      var ts := Compile(d.slice, Wanted(d, n));
      NumCompiled(g, old(tasks), tasks, s, i, deps, ts);
      deps' := deps;
      for j := 0 to n
        invariant |deps'| == n && deps'[j..] == deps[j..]
        invariant forall m: nat :: m < j ==> deps'[m] == deps[m] + [DepOn(d, ts, m)]
      {
        assert deps'[j] == deps[j];
        deps' := deps'[j := deps'[j] + [DepOn(d, ts, j)]];
      }
      DepsReadNext(g, old(tasks), tasks, s, i, deps, ts, deps');
    }

    /** Creates the tasks of a slice, one for each shard. */
    method AddTasks(s: nat, part: Partitioning<V>, slices: seq<nat>, deps: seq<seq<TaskDep>>,
                    runs: seq<Option<Computation<V>>>)
      returns (ts: seq<nat>)
      requires Valid() && s < |g.slices| && Known(g, part.partitioner) && PipelinedFrom(g, s, slices)
      requires var last := slices[|slices| - 1]; DepsRead(g, tasks, last, |g.slices[last].deps|, deps)
      requires |runs| == |deps| && forall j: nat :: j < |runs| ==>
                 runs[j].Some? && Computes(runs[j].value, g, slices, 0, j)
      modifies this`tasks
      ensures Valid() && old(tasks) <= tasks && Compiled(g, tasks, s, part, ts)
    {
      hide Compiled, Ordered, Phased, AllKnown, Known, DepsRead, Computes;
      var n, base := |deps|, |tasks|;
      ts := seq(n, j requires 0 <= j < n => base + j);
      var created := seq(n, j requires 0 <= j < n =>
                        Task(s, j, part.NumPartition(), PartitionerOf(g, part.partitioner), deps[j], runs[j].value,
                             if part.IsShuffle() then ts else []));
      tasks := tasks + created;
      TasksAdded(g, old(tasks), created, s, part, slices, deps, ts);
      StillKnown(g, old(tasks), created, part);
      StillPhased(g, old(tasks), created, slices[|slices| - 1], deps, ts);
      forall key | key in memo
        ensures Compiled(g, tasks, key.0, Partitioning(key.1, None), memo[key])
      {
        CompiledStays(g, old(tasks), tasks, key.0, Partitioning(key.1, None), memo[key]);
      }
    }
  }

  lemma NumCompiled<V(!new)>(g: Graph<V>, tasks: seq<Task<V>>, tasks': seq<Task<V>>, s: nat, i: nat,
                             deps: seq<seq<TaskDep>>, ts: seq<nat>)
    requires g.WellFormed() && Ordered(tasks) && Ordered(tasks') && s < |g.slices| && i < |g.slices[s].deps|
    requires DepsRead(g, tasks, s, i, deps) && g.slices[s].deps[i].slice < |g.slices|
    requires var d := g.slices[s].deps[i]; Compiled(g, tasks', d.slice, Wanted(d, g.slices[s].numShard), ts)
    ensures |deps| == g.slices[s].numShard && |ts| == g.slices[g.slices[s].deps[i].slice].numShard
    ensures ts != [] && (!g.slices[s].deps[i].shuffle ==> |ts| == |deps|)
  {
    assert g.Fits(s, g.slices[s].deps[i]);
  }

  lemma DepsReadNext<V(!new)>(g: Graph<V>, tasks: seq<Task<V>>, tasks': seq<Task<V>>, s: nat, i: nat,
                              deps: seq<seq<TaskDep>>, ts: seq<nat>, deps': seq<seq<TaskDep>>)
    requires g.WellFormed() && Ordered(tasks) && Ordered(tasks') && tasks <= tasks' && s < |g.slices| &&
             i < |g.slices[s].deps|
    requires DepsRead(g, tasks, s, i, deps) && g.slices[s].deps[i].slice < s
    requires var d := g.slices[s].deps[i]; Compiled(g, tasks', d.slice, Wanted(d, g.slices[s].numShard), ts)
    requires ts != [] && (!g.slices[s].deps[i].shuffle ==> |ts| == |deps|) && |deps'| == |deps|
    requires forall m: nat :: m < |deps| ==> deps'[m] == deps[m] + [DepOn(g.slices[s].deps[i], ts, m)]
    ensures DepsRead(g, tasks', s, i + 1, deps')
  {
    hide Ordered, Compiled, ReadDep, Input;
    forall j: nat | j < |deps'|
      ensures DepsBelow(tasks', deps'[j], |tasks'|) && ReadDeps(tasks', deps'[j], |tasks'|) == Inputs(g, s, j, i + 1)
    {
      DepsStay(tasks, tasks', deps[j], |tasks|, |tasks'|);
      ReadsInput(g, tasks', s, i, ts, j);
      assert deps'[j][..|deps[j]|] == deps[j];
    }
  }

  lemma StillOrdered<V(!new)>(tasks: seq<Task<V>>, added: seq<Task<V>>)
    requires Ordered(tasks) && forall j: nat :: j < |added| ==> DepsBelow(tasks, added[j].deps, |tasks|)
    ensures Ordered(tasks + added)
  {
    var all := tasks + added;
    forall t: nat, i: nat | t < |all| && i < |all[t].deps|
      ensures DepBelow(all, all[t].deps[i], t)
    {
      if t < |tasks| {
        assert DepBelow(tasks, tasks[t].deps[i], t);
      } else {
        assert DepBelow(tasks, added[t - |tasks|].deps[i], |tasks|);
      }
    }
  }

  lemma StillKnown<V(!new)>(g: Graph<V>, tasks: seq<Task<V>>, added: seq<Task<V>>, part: Partitioning<V>)
    requires AllKnown(g, tasks) && Known(g, part.partitioner)
    requires forall j: nat :: j < |added| ==>
               added[j].numPartition == part.NumPartition() &&
                 added[j].partitioner == PartitionerOf(g, part.partitioner)
    ensures AllKnown(g, tasks + added)
  {
    hide Known;
    forall t: nat | t < |tasks + added|
      ensures KnownAt(g, (tasks + added)[t])
    {
      if t < |tasks| {
        assert KnownAt(g, tasks[t]);
      }
    }
  }

  lemma GroupStays<V>(tasks: seq<Task<V>>, added: seq<Task<V>>, t: nat)
    requires t < |tasks| && GroupedAt(tasks, t)
    ensures GroupedAt(tasks + added, t)
  {
    var all, group := tasks + added, tasks[t].group;
    assert all[t] == tasks[t];
    forall i | 0 <= i < |group|
      ensures group[i] == group[0] + i && all[group[0] + i].group == group
    {
      assert all[group[0] + i] == tasks[group[0] + i];
    }
  }

  lemma GroupAdded<V>(tasks: seq<Task<V>>, added: seq<Task<V>>, ts: seq<nat>, k: nat)
    requires k < |added| == |ts| && forall j: nat :: j < |ts| ==> ts[j] == |tasks| + j
    requires added[k].group == [] || added[k].group == ts
    requires forall j: nat :: j < |added| ==> added[j].group == added[k].group
    ensures GroupedAt(tasks + added, |tasks| + k)
  {
    var all, group := tasks + added, added[k].group;
    assert all[|tasks| + k] == added[k];
    if group != [] {
      assert group[0] == |tasks|;
      forall i | 0 <= i < |group|
        ensures group[i] == group[0] + i && all[group[0] + i].group == group
      {
        assert all[|tasks| + i] == added[i];
      }
    }
  }

  lemma StillPhased<V(!new)>(g: Graph<V>, tasks: seq<Task<V>>, added: seq<Task<V>>, last: nat, deps: seq<seq<TaskDep>>,
                             ts: seq<nat>)
    requires g.WellFormed() && Ordered(tasks) && Phased(tasks) && last < |g.slices|
    requires DepsRead(g, tasks, last, |g.slices[last].deps|, deps)
    requires |added| == |deps| == |ts| && forall j: nat :: j < |deps| ==> ts[j] == |tasks| + j
    requires forall j: nat :: j < |deps| ==> added[j].deps == deps[j] && (added[j].group == [] || added[j].group == ts)
    requires forall i: nat, j: nat :: i < |deps| && j < |deps| ==> added[i].group == added[j].group
    ensures Phased(tasks + added)
  {
    hide Ordered, ReadDeps, Inputs;
    var all := tasks + added;
    forall t: nat | t < |all|
      ensures GroupedAt(all, t)
    {
      if t < |tasks| {
        assert GroupedAt(tasks, t);
        GroupStays(tasks, added, t);
      } else {
        GroupAdded(tasks, added, ts, t - |tasks|);
      }
    }
    forall t: nat, i: nat | t < |all| && i < |all[t].deps|
      ensures DepBelow(all, all[t].deps[i], PhaseStart(all, t))
    {
      if t < |tasks| {
        assert GroupedAt(tasks, t);
        assert DepBelow(tasks, tasks[t].deps[i], PhaseStart(tasks, t));
      } else {
        assert DepBelow(tasks, deps[t - |tasks|][i], |tasks|);
      }
    }
  }

  lemma TasksAdded<V(!new)>(g: Graph<V>, tasks: seq<Task<V>>, added: seq<Task<V>>, s: nat, part: Partitioning<V>,
                            slices: seq<nat>,
                            deps: seq<seq<TaskDep>>, ts: seq<nat>)
    requires g.WellFormed() && Ordered(tasks) && s < |g.slices| && PipelinedFrom(g, s, slices)
    requires var last := slices[|slices| - 1]; DepsRead(g, tasks, last, |g.slices[last].deps|, deps)
    requires |added| == |deps| == |ts| && forall j: nat :: j < |deps| ==> ts[j] == |tasks| + j
    requires forall j: nat :: j < |deps| ==>
               && added[j].slice == s && added[j].shard == j
               && added[j].deps == deps[j] && Computes(added[j].run, g, slices, 0, j)
               && added[j].numPartition == part.NumPartition() &&
                 added[j].partitioner == PartitionerOf(g, part.partitioner)
               && added[j].group == if part.IsShuffle() then ts else []
    ensures Ordered(tasks + added) && Compiled(g, tasks + added, s, part, ts)
  {
    hide Ordered, Inputs, Shard, ReadDeps;
    StillOrdered(tasks, added);
    var all, last := tasks + added, slices[|slices| - 1];
    forall j: nat | j < |ts|
      ensures Output(all, ts[j]) == Shard(g, s, j)
    {
      assert all[ts[j]] == added[j];
      DepsStay(tasks, all, deps[j], |tasks|, ts[j]);
      ComposedIsShard(g, slices, 0, j);
      assert Computes(added[j].run, g, slices, 0, j);
    }
  }

  /** Compiling a slice into one task for each shard, which computes what slice-by-slice evaluation gives. */
  method CompileSlice<V(!new)>(g: Graph<V>, s: nat) returns (tasks: seq<Task<V>>, roots: seq<nat>)
    requires g.WellFormed() && s < |g.slices|
    ensures Ordered(tasks) && |roots| == g.slices[s].numShard
    ensures forall j: nat :: j < |roots| ==> roots[j] < |tasks| && Output(tasks, roots[j]) == Shard(g, s, j)
    ensures forall j: nat :: j < |roots| ==> tasks[roots[j]].numPartition == 1
    ensures GraphOf(tasks).WellFormed() && AllKnown(g, tasks)
    ensures |g.slices[s].deps| == 1 && g.slices[s].deps[0].shuffle && g.slices[s].numShard > 1 ==>
              forall j: nat :: j < |roots| ==>
                var d, n := g.slices[s].deps[0], g.slices[s].numShard;
                && d.slice < s
                && var parts := if d.partitioner.Some? then SentParts(g, d.slice, d.partitioner.value, n, j)
                                else HashedParts(g, d.slice, n, j);
                   Output(tasks, roots[j]) == g.slices[s].reader(j, if d.expand then parts else [Flatten(parts)])
  {
    hide Phased, Ordered, Output, Shard, GraphOf, AllKnown, SentParts, HashedParts, Flatten;
    if |g.slices[s].deps| == 1 && g.slices[s].deps[0].shuffle && g.slices[s].numShard > 1 {
      forall j: nat {
        ShuffledShard(g, s, j);
      }
    }
    var c := new Compiler(g);
    roots := c.Compile(s, Partitioning(0, None));
    tasks := c.tasks;
    PhasedIsWellFormed(tasks);
  }
}
