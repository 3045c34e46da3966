/**
 Running a slice (exec/session.go): it is compiled, and the tasks of its
 shards are evaluated.
 */
module Session {
  import opened Rows
  import TaskGraph
  import opened SliceGraph
  import opened Compile
  import opened Evaluator
  import opened Evaluation
  import opened Reduction
  import opened Streams
  import opened Shuffle
  import Probing
  import Runs
  import LocalExecutor
  import LocalRuns

  /**
   When an evaluation ends without an error, for any script of what executors
   and machines do, the task of every shard has completed; and what it computes
   is the shard of slice-by-slice evaluation. If results are not lost again, no
   task is submitted more than five times, and five rounds for each task, in
   which every task is finished, noticed and delivered, end the evaluation;
   without losses, one round for each task completes it.
   */
  method RunSlice<V(!new)>(g: Graph<V>, s: nat, stable: bool, script: seq<Event>)
    returns (tasks: seq<Task<V>>, roots: seq<nat>, done: bool, err: bool, st: map<TaskGraph.Task, TaskGraph.TaskState>,
             ghost trace: seq<Runs.Turn>, ghost last: Moment)
    requires g.WellFormed() && s < |g.slices|
    ensures Ordered(tasks) && |roots| == g.slices[s].numShard
    ensures forall j: nat :: j < |roots| ==> roots[j] < |tasks| && Output(tasks, roots[j]) == Shard(g, s, j)
    ensures done && !err ==> forall j: nat :: j < |roots| ==> roots[j] in last.s.seenOk
    ensures done && !err && stable ==> forall j: nat :: j < |roots| ==> roots[j] in st && st[roots[j]].Ok?
    ensures stable ==> forall t :: last.l.submitted[t] <= 5
    ensures stable && Runs.Rounds(script, Probing.Range(|tasks|), 5 * |tasks|) ==> done
    ensures Runs.Smooth(script) ==> !err && forall t :: last.l.submitted[t] <= 1
    ensures Runs.Smooth(script) && Runs.Rounds(script, Probing.Range(|tasks|), |tasks|) ==> done
    ensures Runs.NoFailures(script) && (forall t :: Runs.Losses(script, t) < 5) ==> !err
    ensures Runs.Ran(GraphOf(tasks), Elems(roots), stable, trace, last) && Runs.Follows(trace, last, script)
    ensures done == last.Over() && err == last.err && st == last.s.st
  {
    hide *;
    tasks, roots := CompileSlice(g, s);
    var graph := GraphOf(tasks);
    LocalRuns.Roots(tasks, roots);
    LocalRuns.InitialFacts(graph);
    LocalRuns.TaskSet(tasks);
    done, err, st, trace, last := Runs.Eval(graph, LocalRuns.Initial(graph), roots, stable, script);
    assert |graph.nodes| == |graph.nodes.Keys|;
  }

  /**
   Compiled, evaluated and run by the local executor, for any script of what
   happens: a shard that can be read is the shard of slice-by-slice evaluation.
   When the evaluation ends without an error and results are not lost again,
   all of them can be read, and no task was run before its inputs were there.
   That is so if nothing but running happens, for as many rounds as there are
   tasks; and five times as many end the evaluation in any case.
   */
  method RunLocally<V(!new)>(g: Graph<V>, s: nat, chunk: nat, open: (nat, seq<Row<V>>) -> Reader<V>,
                             emit: (nat, seq<Row<V>>) -> Reader<V>, stable: bool, script: seq<LocalRuns.Step>)
    returns (shards: seq<Option<seq<Row<V>>>>, done: bool, err: bool, ghost starved: set<nat>, ghost ntasks: nat)
    requires g.WellFormed() && Assigns(g) && s < |g.slices| && chunk > 0
    requires ReadsBack(open) && forall t, rows :: emit(t, rows).rest == rows
    ensures |shards| == g.slices[s].numShard
    ensures forall j: nat :: j < |shards| && shards[j].Some? ==> shards[j].value == Shard(g, s, j)
    ensures done && !err && stable ==> starved == {} && forall j: nat :: j < |shards| ==> shards[j].Some?
    ensures stable && LocalRuns.Rounds(script, Probing.Range(ntasks), 5 * ntasks) ==> done
    ensures stable && LocalRuns.OnlyRunning(script) && LocalRuns.Rounds(script, Probing.Range(ntasks), ntasks) ==>
              done && !err && forall j: nat :: j < |shards| ==> shards[j] == Some(Shard(g, s, j))
  {
    hide *;
    var tasks, roots := CompileSlice(g, s);
    LocalExecutor.KnownPartitions(g, tasks);
    var x := new LocalExecutor.Executor(tasks, chunk, open, emit);
    ghost var submitted;
    starved, done, err, submitted := LocalRuns.EvalLocally(x, roots, stable, script);
    ntasks := |tasks|;
    shards := [];
    for j := 0 to |roots|
      invariant |shards| == j && forall i: nat :: i < j && shards[i].Some? ==> shards[i].value == Shard(g, s, i)
      invariant forall i: nat :: i < j ==> (shards[i].Some? <==> roots[i] in x.buffers)
      modifies {}
    {
      var t := roots[j];
      if t in x.buffers {
        StoredShard(x, t);
        shards := shards + [Some(Flatten(x.buffers[t][0]))];
      } else {
        shards := shards + [None];
      }
    }
  }

  lemma StoredShard<V(!new)>(x: LocalExecutor.Executor<V>, t: nat)
    requires x.Valid() && t in x.buffers && t < |x.tasks| && x.tasks[t].numPartition == 1
    ensures |x.buffers[t]| == 1 && Flatten(x.buffers[t][0]) == Output(x.tasks, t)
  {
    hide Ordered, Output, PartOf, Flatten;
    assert LocalExecutor.Right(x.tasks, t, x.buffers[t]);
    PartOfOne(LocalExecutor.PartitionOf(x.tasks[t]), Output(x.tasks, t));
  }
}
