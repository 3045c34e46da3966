# Bigslice, verified

Bigslice turns a graph of dataset operations ("slices") into a graph of tasks,
schedules the tasks over machines that can fail, and moves rows through hash
tables, sorts, merges and shuffles. This project models that machinery in Dafny
and proves what it is for:

* **Evaluation never stalls.** Whatever executors and machines do to task
  states, an evaluation that has nothing left to do and no error has seen every
  root complete. Tasks are only run when their dependencies have finished, and
  if results are not lost again no task is submitted more than five times.
* **Evaluation gets there.** The tasks returned are exactly those that could be
  delivered. Five rounds for each task, in which every task is finished, noticed
  and delivered, end every evaluation whose results stay; without losses one
  round for each task completes it, with no task submitted twice. It fails if
  and only if a failed task is delivered, and a task fails if and only if an
  executor says so or it was lost five times in a row (`Runs.Eval`).
* **Compilation preserves meaning.** The compiled tasks, run with composed
  readers, partitioned reads and memoized dependencies, compute what
  slice-by-slice evaluation computes, and form the acyclic graph of phases that
  the evaluator asks for (`Session.RunSlice`). Evaluated over the local executor,
  with tasks failing, being lost and being run again at any time, every shard
  that can be read holds exactly these rows; and if the evaluation ends without
  an error and results are not lost, all shards can be read and no task was ever
  run before its inputs were there. Running every task in as many rounds as there
  are tasks is enough for that (`Session.RunLocally`).
* **Combining is folding.** A power-of-two table with triangular probing,
  growth in the middle of a batch and compaction by swaps refines a map from
  keys to left folds; spilling is invisible; and the local and the distributed
  way of reducing a slice give the same rows.
* **Sorted streams.** External sort sorts and permutes, merge-reduce reduces,
  cogroup is group-by, for every chunking of input and output.
* **The machine manager** balances its books, serves requests by priority and
  then size, drops none, keeps every machine in the right queue at its index,
  stays within its limit and is never stuck.
* **Smaller protocols.** The combine-key commit protocol, shuffle writers, the
  batch codec, the retrying reader and the edit script between function lists.

`dafny verify dfyconfig.toml` checks everything.

## How it is modelled

Rows are a key and a value; only order and equality of keys matter, so a key is
an integer, and hashing is an arbitrary function of it. Objects whose methods
update fields are classes with `modifies` clauses; loops are loops. What the
program cannot control is a parameter about which little or nothing is assumed:

* a *reader* carries a policy that decides how many rows each call returns and
  whether the end is reported with the last rows or after them. It never returns
  nothing without reporting the end while rows remain, which the buffers of the
  sorted readers rely on (`sortio/sort.go:115-117`);
* a *sort* is any function that orders and permutes; spilled runs come back in
  any order and in any batches;
* an *evaluation* is driven by a script of events: task states change, a
  watcher notices that a task has ended, a task is delivered to the loop. The
  machine manager and the combine-key protocol are driven the same way. Events
  that are impossible in the current state are skipped, so scripts stand for
  exactly the possible runs;
* machines of the manager, and tasks of the compiler, are named by numbers; the
  fields of machines are maps from these.

Go's `container/heap` is part of the model (`Heaps`). Its operations return the
swaps they made, so that the queue whose `Swap` also updates positions can be
verified against them.

Some things the program relies on do not hold in general, and are proved to hold
exactly under a condition: task names are unique unless a requested name already
looks like a numbered one (`TaskNames.UniqueUnlessClashing`), and chained readers
lose nothing unless a reader reports its end along with rows
(`Shuffle.NothingDropped`). Likewise, an encoded stream that was cut short gives
the rows of its whole batches, and the cut is noticed unless it lies between two
batches or right before a column without a codec of its own (`Codec.ReadCut`);
`Codec.CutUnnoticed` is a stream that loses a row this way. A batch whose
checksum is not that of its count and columns is always refused
(`Codec.ReadDamaged`).

The combining frame panics when a table of the maximal size outgrows its load
factor; methods report this with `ok == false`, and say exactly when it happens.

| file | what it is about |
|---|---|
| TaskGraph, Waitlist, Evaluator, Evaluation, Runs | the evaluator, its waitlist invariant, what happens to an evaluation, whole runs |
| SliceGraph, Compile, TaskNames, LocalExecutor, LocalRuns, Session | slices and their meaning, compilation, naming, running tasks locally, local runs, running a slice |
| Rows, Reduction, Monoids | what it means to combine rows; totals that do not depend on arrangement |
| Probing, HashTable, CombiningFrame, Combiner | the hash table and the spilling combiner |
| Heaps, Streams, MergeReader, ReduceReader, Cogroup | sorted streams |
| Shuffle, Strategies | partitioned output; the two ways to reduce |
| MachineQueues, Manager | the machine manager |
| CombineKey, Codec, RetryReader, Diff | smaller protocols and algorithms |

## Model

| member | source | states |
|---|---|---|
| `TaskGraph.PhaseFacts` | exec/task.go:293-307 | a phase is the same seen from each of its tasks and lists each of them once |
| `TaskGraph.DependencyIsPhase` | exec/task.go:112-128 | expanding a dependency task by task gives exactly the phase of its head |
| `Waitlist.BudgetMinusOne` | exec/eval.go:359-367 | completing a task takes at most one completion from the budget of each task waiting on its phase |
| `Waitlist.BudgetAdd` | exec/eval.go:347-355 | recording a dependency for the first time adds exactly the outstanding tasks of the phase to the budget |
| `Waitlist.NothingWaits` | exec/eval.go:188-207 | with nothing queued or pending, no live task waits: a positive count would lead down the acyclic graph without end |
| `Waitlist.IdleMeansRootsOk` | exec/eval.go:318-320 | when todo and pending are empty, every root has been seen Ok |
| `Waitlist.CompletedKeeps` | exec/eval.go:284-287 | counting down the tasks that wait for a completed task keeps every count within its budget, and those that reach zero are the ones traversed again |
| `Waitlist.LostKeeps` | exec/eval.go:288-291 | returning a lost task keeps the waitlist invariant, with the task to be traversed |
| `Waitlist.DriftKeeps` | exec/eval.go:171-187 | Ok tasks being lost between rounds keeps the waitlist inequality |
| `Evaluator.State.constructor` | exec/eval.go:210-218 | nothing is recorded, queued or pending |
| `Evaluator.State.Schedule` | exec/eval.go:329-334 | the task is queued unless it is pending |
| `Evaluator.State.Clear` | exec/eval.go:337-344 | the task's count and all its entries in waitlists are gone, and nothing else |
| `Evaluator.State.Add` | exec/eval.go:347-355 | a dependency is recorded and counted once |
| `Evaluator.State.Enqueue` | exec/eval.go:235-264 | the returned and memoized count is the number of unfinished tasks of the phase; only tasks whose dependencies have all finished are queued; the waitlist invariant is kept |
| `Evaluator.State.Visit` | exec/eval.go:240-260 | one task of a phase: counted if unfinished, and then outstanding; seen if Ok |
| `Evaluator.State.VisitLive` | exec/eval.go:245-259 | an Init or Lost task is recorded against exactly those of its dependencies that have unfinished tasks; if there are none it is queued, unless it is pending, and otherwise it waits for as many completions as they have unfinished tasks |
| `Evaluator.State.DoneWith` | exec/eval.go:359-367 | every waiting task is counted down once, and those at zero are returned |
| `Evaluator.State.EnqueueAll` | exec/eval.go:84-86 | several phases are enqueued in one round |
| `Evaluator.State.ReturnOk` | exec/eval.go:284-287 | the invariant survives a completion and the traversals it causes, even if task states change in between |
| `Evaluator.State.ReturnLost` | exec/eval.go:288-291 | the invariant survives a loss |
| `Evaluator.State.Return` | exec/eval.go:268-292 | Err ends the evaluation; otherwise the invariant is kept and only ready tasks are queued |
| `Evaluator.State.Runnable` | exec/eval.go:297-308 | all queued tasks are handed out once and become pending |
| `Evaluation.Submit` | exec/eval.go:109-128 | each runnable task is handed to the executor once |
| `Evaluation.RetriesBounded` | exec/eval.go:29 | if results stay, each task is submitted at most five times, and there are at most five returns per task |
| `Evaluation.AllReturned` | exec/eval.go:128-166 | if results stay, and each task has been returned five times, nothing is queued or pending |
| `Evaluation.Evaluation.constructor` | exec/eval.go:79-91 | the roots are enqueued, and covered by the invariant; only tasks whose dependencies have finished are queued |
| `Evaluation.Evaluation.Dispatch` | exec/eval.go:109-128 | all queued tasks are submitted, with the books kept |
| `Evaluation.Evaluation.HandleMove` | exec/eval.go:41-70 | executors may move tasks they were given, and lose results, without breaking the invariant |
| `Evaluation.Evaluation.HandleSettle` | exec/eval.go:128-166 | a task that has ended resets or advances its loss counter, and fails at the fifth loss in a row (`Runs.TracksAll` states this for whole runs) |
| `Evaluation.Evaluation.Handle` | exec/eval.go:94-166 | every event that can happen has its effect, and only ready tasks are queued |
| `Evaluation.Evaluation.HandleDeliver` | exec/eval.go:94-105 | a task that has ended is returned to the state |
| `Runs.ReturnedExactly` | exec/eval.go:94-105 | the tasks returned so far are exactly those whose delivery was possible |
| `Runs.StageLasts` | exec/eval.go:128-166 | a submitted task that has left the executor, or is on its way back, stays so until it is returned |
| `Runs.ServedReturns` | exec/eval.go:94-166 | a pending task that is finished, noticed and delivered, in this order and with anything in between, is returned |
| `Runs.RoundsReturn` | exec/eval.go:94-166 | every round that serves all tasks returns one, unless the evaluation is over |
| `Runs.TracksAll` | exec/eval.go:134-153 | at every moment: a task that was lost five times in a row has failed; if no executor fails a task, only such tasks have; and the loss counter is the number of losses since the task last ended otherwise |
| `Runs.FailsExactly` | exec/eval.go:268-292 | an evaluation fails if and only if a failed task was delivered |
| `Runs.FewLosses` | exec/eval.go:134-153 | if no executor fails a task and no task is lost five times, the evaluation does not fail |
| `Runs.AlwaysLost` | exec/eval.go:25-29 | if every run of every task is lost, an evaluation with a root to run fails |
| `Runs.SmoothRoundsSuffice` | exec/eval.go:72-75 | without losses and failures, one round for each task ends the evaluation |
| `Runs.RoundsSuffice` | exec/eval.go:25-29 | if results stay, five rounds for each task end the evaluation, whatever is lost or fails |
| `Runs.Eval` | exec/eval.go:79-169 | for every graph and every run: done without error means all roots were seen Ok; if results stay available, all roots are Ok at the end, each task is submitted at most five times and the evaluation is done after five returns per task; exactly the deliveries that were possible are returned; enough rounds end it; without losses it completes with each task submitted at most once; it fails exactly by a failed task, which is one that an executor failed or that was lost five times in a row |
| `Rows.FoldMeaning` | exec/combiner.go:136-146 | folding rows gives each distinct key the left reduction of its values in order of arrival |
| `Probing.NextSlot` | exec/combiner.go:168-171 | adding 1, 2, 3, ... under the mask walks the triangular numbers |
| `Probing.SlotsDiffer` | exec/combiner.go:58-61 | on a power-of-two table the first cap probes are pairwise different |
| `Probing.ProbesCover` | exec/combiner.go:58-61 | so they reach every slot |
| `HashTable.NotCrowded` | exec/combiner.go:149-174 | with a free slot, a probe sequence cannot stay on used slots for cap tries: probe loops terminate |
| `HashTable.AbsentAfter` | exec/combiner.go:154-161 | a free slot on the probe sequence shows that the key is absent |
| `HashTable.InsertKeeps` | exec/combiner.go:156-161 | inserting at the free slot keeps all keys unique and findable, and adds one entry |
| `HashTable.UpdateKeeps` | exec/combiner.go:161-167 | combining at the slot of an equal key changes exactly that entry |
| `HashTable.LiveIsContents` | exec/combiner.go:211-223 | the used rows, in order, have distinct keys and fold to the contents |
| `HashTable.RehashStep` | exec/combiner.go:190-204 | reinserting one used row of the old table keeps the new one in order and adds that row |
| `CombiningFrame.CombiningFrame.constructor` | exec/combiner.go:101-128 | an empty table in order |
| `CombiningFrame.CombiningFrame.Probe` | exec/combiner.go:154-172 | the slot found holds the key, or is free and the key is not in the table |
| `CombiningFrame.CombiningFrame.ProbeFree` | exec/combiner.go:194-203 | a free slot is found |
| `CombiningFrame.CombiningFrame.Rehash` | exec/combiner.go:190-204 | the new table holds exactly the entries of the old one |
| `CombiningFrame.CombiningFrame.Grow` | exec/combiner.go:176-205 | doubling keeps the contents and the scratch rows, and leaves room |
| `CombiningFrame.CombiningFrame.Added` | exec/combiner.go:176-205 | fails only at the maximal capacity; otherwise the table is below its threshold again |
| `CombiningFrame.CombiningFrame.CombineRow` | exec/combiner.go:153-173 | one scratch row is combined into the contents; the scratch rows after it survive, even if the table grows |
| `CombiningFrame.CombiningFrame.CombineScratch` | exec/combiner.go:149-174 | the scratch rows are folded into the contents in order |
| `CombiningFrame.CombiningFrame.Combine` | exec/combiner.go:140-146 | the contents are folded with all rows, in order; it fails exactly if the result has more keys than the largest table may hold |
| `CombiningFrame.CombiningFrame.Compact` | exec/combiner.go:211-223 | returns one row for each key, which fold to the contents, and leaves the table empty |
| `Reduction.FoldIsMerge` | exec/combiner.go:225-258 | for an associative, commutative combiner, combining rows into a map is merging it with the rows combined on their own |
| `Reduction.ReducedPermuted` | exec/combiner.go:312-329 | the order of runs does not matter |
| `Reduction.ReducedIsFold` | exec/combiner.go:312-329 | reducing runs gives what folding all their rows gives |
| `Combiner.FrameReader` | sliceio/reader.go:130-146 | returns as many rows as fit, and the end with the last ones |
| `Combiner.SortDistinct` | exec/combiner.go:260-262 | sorting compacted rows makes them strictly increasing and keeps their values |
| `Combiner.Combiner.constructor` | exec/combiner.go:241-258 | nothing combined yet |
| `Combiner.Combiner.Spill` | exec/combiner.go:260-273 | what was in memory moves to a strictly sorted run; nothing combined so far is lost |
| `Combiner.Combiner.Combine` | exec/combiner.go:282-302 | spilled runs and memory together amount to the fold of all rows ever combined; a spill happens exactly if the target was reached before |
| `Combiner.Combiner.Reader` | exec/combiner.go:312-329 | what is left to read is the fold of everything combined, however the spilled runs are listed |
| `Combiner.CombineAll` | exec/combiner.go:260-357 | spilling is invisible: for any batches, target, run order and frame sizes, every key comes out once, in increasing order, with the reduction of all its values; it fails only for more than 375809638 keys |
| `Heaps.RootIsLeast` | sortio/sort.go:123-132 | nothing in a heap is less than its first element |
| `Heaps.Down` | sortio/sort.go:209-216 | sifting down restores the order below and is made of the returned swaps |
| `Heaps.Up` | sortio/reader.go:116-121 | sifting up restores the order and is made of the returned swaps |
| `Heaps.Push` | sortio/reader.go:116-121 | a heap with the element added |
| `Heaps.Fix` | sortio/sort.go:211-216 | a heap again after one element changed its rank, with the same elements |
| `Heaps.Remove` | sortio/sort.go:209-210 | a heap without the element at the given position |
| `Heaps.Pop` | sortio/reader.go:90-91 | the least element is removed |
| `Heaps.Init` | sortio/sort.go:185 | a heap of the same elements |
| `Streams.Reader.Take` | sliceio/reader.go:33-51 | a call returns no more than fits, and something as long as rows remain |
| `Streams.FrameBuffer.Fill` | sortio/sort.go:102-119 | a refilled buffer holds what the reader had left; the end is reported exactly if that was nothing |
| `Streams.FrameBuffer.Advance` | sortio/sort.go:202-217 | moving on drops exactly the current row, across refills |
| `Streams.RootRowIsLeast` | sortio/sort.go:130-132 | the current row at the root has the least key of all rows to come |
| `Streams.AdvanceRoot` | sortio/sort.go:202-216 | the root buffer moves on, finds its place, or leaves the heap when drained |
| `Streams.PoolAdvanced` | sortio/sort.go:199-216 | exactly the current row of the root leaves the rows to come |
| `MergeReader.MergeReader.constructor` | sortio/sort.go:161-187 | the merge holds exactly the rows of its readers; empty ones are skipped |
| `MergeReader.MergeReader.Read` | sortio/sort.go:190-222 | what is returned is sorted, taken from the rows to come and at most any that remain; the end is reported exactly when nothing is left |
| `MergeReader.ReadFull` | sliceio/reader.go:181-191 | exactly n rows, or all that were left with the end reported |
| `MergeReader.RunTarget` | sortio/sort.go:61-65 | the most rows that fit the target at the bytes per row of the last run, but at least a batch |
| `MergeReader.NextRunSize` | sortio/sort.go:61-69 | the next run size is within 5% of what fits the target, and stays if it was |
| `MergeReader.SortReader` | sortio/sort.go:31-76 | however runs are cut and listed, the merge holds exactly the rows of the input |
| `MergeReader.Drain` | sortio/sort.go:190-222 | reading to the end, in frames of any sizes, gives all rows in order |
| `MergeReader.ExternalSort` | sortio/sort.go:31-76 | the output is sorted and a permutation of the input, for any chunking and changing run sizes |
| `ReduceReader.Gather` | sortio/reader.go:84-92 | all buffers with the least key, and no others, are popped |
| `ReduceReader.PushBack` | sortio/reader.go:110-122 | gathered buffers move on and return to the heap, unless drained |
| `ReduceReader.Combined` | sortio/reader.go:95-104 | the gathered values are reduced in the order they came off the heap |
| `ReduceReader.Reducer.constructor` | sortio/reader.go:52-78 | what is left to read is the reduction of all readers |
| `ReduceReader.Reducer.Read` | sortio/reader.go:48-130 | rows put out and rows to come together amount to what was left; keys are strictly increasing and below those to come |
| `ReduceReader.DrainReduced` | exec/combiner.go:335-357 | reading to the end, in frames of any sizes, gives each key once, in increasing order, with its reduction |
| `Cogroup.BagAdvanced` | cogroup.go:210-231 | advancing the root takes exactly its value from its input and key |
| `Cogroup.BagBelow` | cogroup.go:199-208 | buffers hold nothing for keys below the root's |
| `Cogroup.PutOut` | cogroup.go:234-259 | a gathered row holds all values of its key from each input, and the key is new and larger than all before |
| `Cogroup.CogroupReader.constructor` | cogroup.go:267-272 | nothing read, nothing put out |
| `Cogroup.CogroupReader.Start` | cogroup.go:131-178 | inputs are sorted and buffered, with all their values; empty inputs are skipped |
| `Cogroup.CogroupReader.Gather` | cogroup.go:192-232 | all rows with the least key are gathered by input |
| `Cogroup.CogroupReader.Read` | cogroup.go:123-265 | everything put out so far is faithful and in order, nothing else has been consumed, and the end is reported exactly when nothing comes |
| `Cogroup.GroupAll` | cogroup.go:123-265 | cogroup is group-by: keys strictly increasing, every key of any input once, group i the multiset of its values in input i |
| `Shuffle.PartOfConcat` | exec/bigmachine.go:931-956 | partitions of successive frames concatenate |
| `Shuffle.PartsConserve` | exec/bigmachine.go:937-950 | together the partitions hold exactly the rows that were written, each as often as it was |
| `Shuffle.FlushWriter.constructor` | exec/bigmachine.go:920-929 | empty buffers |
| `Shuffle.FlushWriter.Put` | exec/bigmachine.go:937-950 | the row is added to its partition and no other, and counted; full buffers are written out |
| `Shuffle.FlushWriter.Flush` | exec/bigmachine.go:957-965 | what was written to each file is its partition, in order, and the counts match |
| `Shuffle.WriteOutput` | exec/bigmachine.go:911-995 | partition p gets exactly the rows assigned to it, in order, and their number is committed |
| `Shuffle.AppendRow` | exec/local.go:220-229 | the row is appended to the last frame, or starts a new one |
| `Shuffle.BufferOutput` | exec/local.go:187-241 | the in-memory buffer of partition p holds exactly the rows assigned to it, in order |
| `Shuffle.NothingDropped` | exec/local.go:248-265 | a chained read loses rows if and only if a reader reports its end along with rows |
| `Shuffle.RowIsDropped` | exec/local.go:253-256 | a reader whose only row comes with the end: the row is lost |
| `Shuffle.DrainChain` | exec/local.go:248-265 | reading chained readers to the end gives their rows, one reader after the other |
| `Shuffle.MultiReader.Read` | exec/local.go:248-265 | rows come from the first reader that does not end with the call; if readers report the end alone, nothing is lost or reordered, and the end comes exactly when nothing is left |
| `Strategies.Lane.constructor` | exec/bigmachine.go:1118-1120 | an empty buffer in front of an empty combiner |
| `Strategies.Lane.Accept` | exec/bigmachine.go:1127-1153 | buffer and combiner together amount to all rows so far, whether or not the buffer is flushed; it is flushed if and only if it is more than half full, and has at least 8 keys or the combiner is available |
| `Strategies.Lane.Flush` | exec/bigmachine.go:1160-1168 | everything accepted is in the combiner |
| `Strategies.Lane.Commit` | exec/bigmachine.go:1222-1247 | what is written is strictly increasing and amounts to what was combined |
| `Strategies.CombineOutput` | exec/bigmachine.go:1121-1159 | each partition's lane takes exactly the rows of its partition |
| `Strategies.RunCombine` | exec/bigmachine.go:1044-1170 | for any flush schedule, each committed file amounts to the fold of its partition of the task's output |
| `Strategies.ReduceShard` | reduce.go:73-78 | one stream is passed on, several are merged: the same rows as reducing all of them |
| `Strategies.Distributed` | exec/bigmachine.go:1113-1168 | the consumer's rows are the reduction of all producers' rows for its partition |
| `Strategies.CombineReader` | exec/local.go:104-132 | everything read is combined, frame by frame |
| `Strategies.Local` | exec/local.go:101-145 | the same reduction, combining while reading |
| `Strategies.SameRows` | reduce.go:73-78 | strictly increasing rows are determined by what they fold to |
| `Strategies.ReduceBothWays` | exec/local.go:101-145 | both strategies give every shard the same rows: each key once, in order, with the reduction of all its values; each fails only if rows of one partition have more keys than the largest table may hold |
| `SliceGraph.ShuffledInput` | exec/compile.go:76-83 | the input of a shard after a shuffle is, from each shard of the dependency, the rows that the given partitioner sends to it, or without one those whose hash modulo the number of shards is its number; a single shard gets all rows |
| `SliceGraph.ShuffledShard` | exec/compile.go:288-321 | a shard of a slice over one shuffle is its reader on exactly these rows |
| `Compile.OutputStays` | exec/compile.go:186-202 | adding tasks does not change what earlier tasks compute, so memoized tasks can be reused |
| `Compile.Pipeline` | exec/compile.go:29-48 | the chain of single unshuffled dependencies, ending exactly where a shuffle, several dependencies, none, or a materialized slice is met |
| `Compile.ComposedIsShard` | exec/compile.go:322-372 | composed readers, run on the inputs of the last slice, give the shard of the first |
| `Compile.ComposeReaders` | exec/compile.go:325-372 | each shard's computation is the composition of its slices' readers |
| `Compile.ReadsInput` | exec/compile.go:288-321 | reading a dependency of compiled tasks, by shard or by partition, merged or expanded, gives the input of the slice |
| `Compile.Compiler.constructor` | exec/compile.go:111-117 | nothing compiled |
| `Compile.Compiler.Compile` | exec/compile.go:182-374 | one task for each shard, which computes the shard, with the partitioning asked for, grouped for a shuffle; tasks are reused for the same slice and number of partitions, and only where that holds of them |
| `Compile.Compiler.CompileDep` | exec/compile.go:288-321 | the dependencies of each shard stand for the inputs of slice-by-slice evaluation |
| `Compile.Compiler.AddTasks` | exec/compile.go:267-284 | the new tasks compute their shards; all earlier compilations stay valid |
| `Compile.PhasedIsWellFormed` | exec/compile.go:205-211 | compiled tasks form an acyclic graph of phases with proper heads |
| `Compile.TasksRead` | exec/task.go:112-128 | the tasks read for a dependency are exactly the phase that the evaluator waits for, in order |
| `Compile.CompileSlice` | exec/compile.go:111-123 | compilation preserves meaning: running the tasks gives each shard the rows of slice-by-slice evaluation; over one shuffle these are the reader on the rows that the given partitioner, or else the hash, sends to the shard |
| `TaskNames.Namer.New` | exec/compile.go:378-385 | the name itself the first time, and then followed by the number of earlier requests; the request is counted |
| `TaskNames.MintAll` | exec/compile.go:376-385 | the names for a list of requests |
| `TaskNames.NamesRepeat` | exec/compile.go:376-385 | minted names are not always unique: two slices of an invocation whose names differ only in a final 1, and the shorter name requested twice |
| `TaskNames.UniqueUnlessClashing` | exec/compile.go:376-385 | they are unique if and only if no requested name is another one followed by a positive number smaller than the other one's number of requests |
| `LocalExecutor.Executor.constructor` | exec/local.go:34-40 | no buffers |
| `LocalExecutor.Executor.DepReader` | exec/local.go:103-142 | the right partition of each task of the dependency, one by one or chained; it fails exactly if a buffer is missing |
| `LocalExecutor.Executor.DepReaders` | exec/local.go:101-145 | the inputs the compiled task asks for |
| `LocalExecutor.Executor.Run` | exec/local.go:52-99 | a task runs exactly if all its inputs are there; what it leaves in its buffer is its output, by partition; all other buffers stay |
| `LocalExecutor.Executor.Discard` | exec/local.go:160-176 | only the buffer of the task is gone |
| `LocalExecutor.KnownPartitions` | exec/compile.go:20-24 | compiled tasks assign every row to one of their partitions |
| `LocalExecutor.Executor.Do` | exec/local.go:52-99 | a submitted task starts, completes together with its buffer, is lost if an input is missing, fails or is lost otherwise; a completed one is lost together with its buffer |
| `LocalExecutor.Executor.Work` | exec/local.go:52-99 | any number of such moves, one after the other |
| `LocalExecutor.WorkIsSound` | exec/eval.go:41-70 | what the executor does is within what the evaluator allows for; every Ok task has its buffer; if results are not lost, tasks that found their inputs before still do |
| `LocalExecutor.RunsGoOn` | exec/local.go:52-99 | if results are not lost, running tasks whose inputs are there loses and fails none |
| `LocalRuns.ReadyIsAvailable` | exec/local.go:147-158 | a task whose dependencies have finished without failing finds the buffers of all tasks it reads, if every Ok task has its buffer |
| `LocalRuns.StillLinked` | exec/eval.go:188-207 | every step keeps the link between the evaluator and the executor: Ok tasks have buffers, failed tasks are pending, and without failures and losses all queued and submitted tasks find their inputs |
| `LocalRuns.Launch` | exec/eval.go:109-128 | handing out all queued tasks keeps the link |
| `LocalRuns.Execute` | exec/local.go:52-99 | the work of the executor keeps the link |
| `LocalRuns.NoticeTask` | exec/eval.go:128-166 | settling a task keeps the link |
| `LocalRuns.TakeBack` | exec/eval.go:94-105 | returning a task while the executor works keeps the link, unless the task failed, which ends the evaluation |
| `LocalRuns.TakeStep` | exec/local.go:52-99 | every step of a local run is an event of the evaluation, with its effect |
| `LocalRuns.RoundsStand` | exec/eval.go:94-166 | rounds of running, noticing and returning all tasks are rounds for the evaluator |
| `LocalRuns.EvalLocally` | exec/eval.go:79-169 | an evaluation over the local executor that ends without an error, and in which results stay, leaves the buffer of every root and never ran a task before its inputs were there; if nothing but running happens it does not fail, submits no task twice, and as many rounds as there are tasks complete it; five times as many end it in any case |
| `Session.RunLocally` | exec/session.go:288-351 | compiled, evaluated and run locally, for any script: a shard that can be read is the shard of slice-by-slice evaluation; without an error, and if results stay, all of them can be read; as many rounds of running as there are tasks give all shards |
| `Session.RunSlice` | exec/session.go:288-351 | a slice that is compiled and evaluated without error has completed all its shards, whose tasks compute the right rows; if results stay they are there at the end, within five submissions of each task; enough rounds end the evaluation, and it does not fail without failures and with fewer than five losses of each task |
| `MachineQueues.FollowKeepsPositions` | exec/slicemachine.go:251-254 | through all swaps of a heap operation, every machine's index stays its position |
| `MachineQueues.RemoveKeeps` | exec/slicemachine.go:581-586 | the last machine takes the place of the one that leaves, with its index |
| `MachineQueues.FailureChanged` | exec/slicemachine.go:485-488 | a new failure time disorders only the machine's own place in the heap |
| `MachineQueues.OldestFirst` | exec/slicemachine.go:246-254 | the first machine on probation failed no later than all others |
| `MachineQueues.Pool.AppendMachine` | exec/slicemachine.go:576-579 | the machine is last, at its index |
| `MachineQueues.Pool.RemoveMachine` | exec/slicemachine.go:581-586 | the machine is in no queue, and all others are where their index says |
| `MachineQueues.Pool.PushProbation` | exec/slicemachine.go:256-260 | the machine joins the heap; all positions are right |
| `MachineQueues.Pool.RemoveProbation` | exec/slicemachine.go:262-269 | the machine leaves the heap; all positions are right |
| `MachineQueues.Pool.Suspend` | exec/slicemachine.go:473-477 | a healthy machine moves to probation, and no other |
| `MachineQueues.Pool.Resume` | exec/slicemachine.go:478-482 | a machine on probation moves to the healthy ones, and no other |
| `MachineQueues.Pool.Extend` | exec/slicemachine.go:485-488 | the machine stays on probation, in its new place |
| `MachineQueues.Pool.Drop` | exec/slicemachine.go:523-534 | a stopped machine is in neither queue |
| `Manager.Capacity` | exec/slicemachine.go:375-380 | the whole procs of a machine under the load, with the limit as given; if that is less than one, one proc, and as many as machines are needed for the limit |
| `Manager.Demand` | exec/bigmachine.go:276-279 | an exclusive task asks for a whole machine, any other for its procs or at most a machine |
| `Manager.BalanceGrant` | exec/slicemachine.go:449-451 | granting moves procs from the queue to a machine's load, within its limit |
| `Manager.BalanceReturn` | exec/slicemachine.go:459-462 | returning takes the granted procs from need and load; no load becomes negative |
| `Manager.ScaleUpBounds` | exec/slicemachine.go:542-547 | starting what is missing starts at least one machine and stays within ceil(maxp / machprocs) |
| `Manager.Manager.constructor` | exec/slicemachine.go:361-391 | books balanced, nothing queued |
| `Manager.Manager.Schedule` | exec/slicemachine.go:564-574 | a machine with room if and only if there is one |
| `Manager.Manager.Offer` | exec/slicemachine.go:440-451 | the request granted has the lowest priority value and among those the most procs of all in line, and goes to a machine with room, if there is one; nothing else changes |
| `Manager.Manager.ProbationOver` | exec/slicemachine.go:452-458 | the machine that failed longest ago, by recorded times, is healthy again |
| `Manager.Manager.Done` | exec/slicemachine.go:459-493 | the procs are returned; a healthy machine goes on probation on an error that is not remote, a success ends probation, any other outcome on probation renews it, and nothing else changes |
| `Manager.Manager.Requested` | exec/slicemachine.go:494-496 | the request is queued and needed |
| `Manager.Manager.Started` | exec/slicemachine.go:505-514 | started machines join, and all that were started are no longer pending |
| `Manager.Manager.Stopped` | exec/slicemachine.go:523-534 | the machine is lost, its outstanding procs stay accounted for |
| `Manager.Manager.ScaleUp` | exec/slicemachine.go:539-557 | machines are started only if needed and allowed, at most ten, and otherwise enough; the queue is not stuck |
| `Manager.Manager.Unstuck` | exec/slicemachine.go:421-559 | while a request is queued, some machine has room, or procs are in use on a healthy machine, or a machine is on probation, or machines are starting |
| `Manager.Manager.Step` | exec/slicemachine.go:421-559 | each event has its effect on requests, grants and machines, and machines are started as needed |
| `Manager.Do` | exec/slicemachine.go:421-559 | in every cancel-free run: need is queued plus unreturned procs, loads stay within limits, every machine is in the right queue at its index, machines and starting ones stay within the limit, and the queue is never stuck; every request asked for is in line or was served, grants are what was served less what was returned, stopped machines are lost and started ones known |
| `CombineKey.TakeKeeps` | exec/bigmachine.go:1137-1145 | receiving a combiner leaves each combiner in one place |
| `CombineKey.PutKeeps` | exec/bigmachine.go:1149 | sending it back finds room in the channel and leaves each combiner in one place |
| `CombineKey.KeyState.Enter` | exec/bigmachine.go:1050-1083 | a task may combine if and only if the key is new or being combined, and is counted |
| `CombineKey.KeyState.Take` | exec/bigmachine.go:1137-1145 | the task holds the combiner alone |
| `CombineKey.KeyState.Combine` | exec/bigmachine.go:1147-1148 | rows enter only while the state counts tasks |
| `CombineKey.KeyState.Put` | exec/bigmachine.go:1149 | the combiner is back in its channel, which was empty |
| `CombineKey.KeyState.Leave` | exec/bigmachine.go:1085-1088 | the task is no longer counted |
| `CombineKey.KeyState.Commit` | exec/bigmachine.go:1194-1216 | writing starts exactly if no task is combining; the answer follows from the state |
| `CombineKey.KeyState.Collect` | exec/bigmachine.go:1218-1224 | all combiners are in their channels, so the writer never waits while it holds the lock; it takes everything flushed |
| `CombineKey.KeyState.Finish` | exec/bigmachine.go:1250-1260 | committed or failed |
| `CombineKey.KeyState.Discard` | exec/bigmachine.go:1018-1028 | a committed key is new again: nothing is written and nothing flushed |
| `CombineKey.KeyState.Step` | exec/bigmachine.go:998-1261 | writing starts only from idle, with no task combining; from then on no rows enter until the key is committed or has failed; a committed key is reopened by a discard only, and a failed one never; each event has its effect |
| `CombineKey.StepLaws` | exec/bigmachine.go:995-1261 | the same of the key without its channels |
| `CombineKey.Run` | exec/bigmachine.go:495-504 | in every interleaving: a state at or above idle is idle plus the number of combining tasks, each combiner is in its channel or held by one task, and what is committed is exactly what was flushed, in order; the key behaves as its events say, one after the other |
| `Codec.Encoder.Write` | sliceio/codec.go:85-112 | the tokens of the batch, with the checksum of exactly this batch |
| `Codec.DecodingReader.constructor` | sliceio/codec.go:127-142 | what any stream still gives: the rows of the whole batches at its front, and the end or an error after them |
| `Codec.DecodingReader.Decode` | sliceio/codec.go:183-233 | a batch is taken if and only if its columns have the right form and its checksum is right; the end is reported if and only if the stream stops right before a column without a codec |
| `Codec.CutInBatch` | sliceio/codec.go:183-233 | a batch cut anywhere inside is not taken; it passes for the end if and only if it is cut right before a column without a codec of its own |
| `Codec.DecodingReader.DecodeBatch` | sliceio/codec.go:149-169 | the next whole batch of any stream, or the status in which it ends |
| `Codec.DecodingReader.Read` | sliceio/codec.go:144-178 | on any stream, for any frame size: no row of a whole batch is lost, added or reordered, an end or error comes only after all of them, and sticks |
| `Codec.EncodeBatches` | sliceio/codec.go:85-112 | the stream of several batches is their tokens, one after the other |
| `Codec.DecodeAll` | sliceio/codec.go:144-178 | reading any stream to its end gives exactly the rows of its whole batches, and then how it ends; with flags as the encoder writes them what is read was encoded, encoded streams are read back, and a batch with another checksum ends reading with an error after the intact ones |
| `Codec.BatchReadsBack` | sliceio/codec.go:85-112 | an encoded batch is read back, whatever follows it |
| `Codec.CutStream` | sliceio/codec.go:144-233 | an encoded stream cut anywhere holds exactly its whole batches; the cut passes for the end if and only if it lies between batches or right before a column without a codec |
| `Codec.ReadCut` | sliceio/codec.go:85-178 | encoding, cutting anywhere and decoding gives the rows of the whole batches; the end is reported if and only if the cut is one of these |
| `Codec.CutUnnoticed` | sliceio/codec.go:211-215 | a stream that was cut and loses its row while the end is reported |
| `Codec.DamagedStream` | sliceio/codec.go:222-232 | a batch whose checksum is not that of its count and columns is not taken, and does not pass for the end, whatever is before and after it |
| `Codec.OnlyEncoded` | sliceio/codec.go:183-233 | whatever is taken is what an encoder writes for it, if columns are flagged as the encoder flags them |
| `Codec.ReadDamaged` | sliceio/codec.go:222-232 | intact batches, then one with another checksum, then anything: the rows of the intact ones come out, and then an error |
| `Codec.ReadWrongChecksum` | sliceio/codec.go:222-232 | an altered checksum is noticed |
| `Codec.ReadOtherColumns` | sliceio/codec.go:222-232 | altered columns are noticed if the checksum tells them apart |
| `Codec.RoundTrip` | sliceio/codec.go:85-178 | the decoded rows are the encoded rows, for any batches and frame sizes, and the end comes after them |
| `RetryReader.RetryReader.Try` | exec/bigmachine.go:1316-1329 | a successful attempt reads as many of the stored bytes at the offset delivered so far as it gives, fit and are left, and reports the end exactly if nothing is left and the connection says so |
| `RetryReader.RetryReader.Read` | exec/bigmachine.go:1311-1353 | the bytes returned continue those delivered before, whatever failed in between; the first attempt that succeeds is returned, with its bytes and its end; it gives up exactly after one more attempt than there are tries, or when cancelled; errors stick |
| `RetryReader.ReadAll` | exec/bigmachine.go:1311-1353 | only a prefix of the stored bytes is delivered, and all of them by the end; unless attempts fail for as long as makes the policy give up, the end comes within one read more than there are bytes |
| `Diff.CostIsSmooth` | func.go:278-293 | one more line on either side changes the cost by at most one |
| `Diff.CostIsLeast` | func.go:278-293 | no insert/delete script has fewer edits than the cost, although equal lines are always matched |
| `Diff.Fill` | func.go:266-293 | every cell holds the cost and the last step of a script with that cost |
| `Diff.WalkBack` | func.go:298-313 | one step back extends the script found so far by the right line |
| `Diff.Reverse` | func.go:317-320 | the array is reversed |
| `Diff.LocationsDiff` | func.go:255-322 | nothing exactly if the lists are equal; otherwise the lines of a script that spells both lists and has as few edits as possible, with "+ " before added and "- " before deleted ones |

## Left out

- RPC, bigmachine, EC2, files, gob, CRC, murmur3, reflection and unsafe copying are abstracted to parameters and tokens.
- Frames with several key or value columns, `Frame.Swap` at a nonzero offset, and column types.
- Several evaluators on one graph, tasks that start out failed or in the hands of another evaluator, and discarding a whole result: the no-stall claim is for one evaluator.
- Cancellation of machine requests: requests are queued by value, so the index seen on cancel is the caller's copy.
- The probation timer: probation may end at any time.
- Counting failures to start machines, which only leads to a log message.
- Caches, combiners and reused results in compilation, and pragmas other than materialization; names of tasks are modelled apart from it.
- Combine keys shared by the tasks of a machine, and failed attempts, in the comparison of the two ways to reduce; the protocol of shared keys is modelled without what the combiners compute.
- Errors while spilling to disk or reading back.
- Status, metrics, tracing, debug pages, command-line tools, type checking, `ScanReader` and other easy readers.
- Shuffle.WriteOutput: only for chunks of at least 100 rows, because smaller ones give buffers of size zero.
- MergeReader.SortReader: asks that an encoded run has at least as many bytes as rows, because the source divides by the bytes per row.
- Compile.Compiler.Compile: for slices without combiners and caches, whose unshuffled dependencies have as many shards as they do.
- LocalExecutor.Executor.Run: all inputs of a task are looked up before it runs, and one that is missing makes it lost; in the source a missing buffer fails a task only when it is read (`exec/local.go:151-156`).
- LocalExecutor.Executor.Do: discarding is modelled for tasks without a shared combiner.
- Session.RunSlice: task states change as the script says; what a task leaves behind is modelled for the local executor (`Session.RunLocally`), and for workers by what they write (`Shuffle.WriteOutput`).
- RetryReader.RetryReader.Read: the retry policy is a number of tries and an arbitrary moment of cancellation.
