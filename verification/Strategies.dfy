/**
 The two ways a reduction is run: the local executor combines while it reads
 (exec/local.go); a worker combines what each producer writes, by partition,
 and the consumer merges what was committed (exec/bigmachine.go, reduce.go).
 Both give the same rows.
 */
module Strategies {
  import opened Rows
  import opened Probing
  import opened HashTable
  import opened CombiningFrame
  import opened Streams
  import opened Reduction
  import opened MergeReader
  import opened ReduceReader
  import opened Combiner
  import opened Shuffle

  /** What a reduction needs: the combiner and the surroundings, about which little is known. */
  datatype Job<!V(!new)> = Job(
    f: (V, V) -> V,
    hash: Key -> nat,
    zero: Row<V>,
    sort: seq<Row<V>> -> seq<Row<V>>,
    list: seq<seq<Row<V>>> -> seq<Reader<V>>,
    frames: nat -> nat,
    chunk: nat,
    initSize: nat,
    nscratch: nat)
  {
    ghost predicate Proper() {
      && AssociativeCommutative(f) && IsSort(sort) && ListsAll(list)
      && chunk > 0 && (forall i :: frames(i) > 0)
      && PowerOfTwo(initSize) && initSize <= HASH_MAX_CAPACITY && nscratch > 0
    }
  }

  /** More keys than a combining frame can hold. */
  ghost predicate Overfull<V(!new)>(rows: seq<Row<V>>) {
    |KeysOf(rows)| > Threshold(HASH_MAX_CAPACITY)
  }

  lemma KeysConcat<V(!new)>(a: seq<Row<V>>, b: seq<Row<V>>)
    ensures KeysOf(a) <= KeysOf(a + b)
  {
    forall k | k in KeysOf(a)
      ensures k in KeysOf(a + b)
    {
      var i :| 0 <= i < |a| && a[i].key == k;
      assert (a + b)[i].key == k;
    }
  }

  lemma OverfullStays<V(!new)>(a: seq<Row<V>>, b: seq<Row<V>>)
    requires Overfull(a)
    ensures Overfull(a + b)
  {
    KeysConcat(a, b);
    SubsetSize(KeysOf(a), KeysOf(a + b));
  }

  /** Rows flushed from a part of what was combined. */
  lemma FlushKeeps<V(!new)>(f: (V, V) -> V, sent: seq<Row<V>>, flushed: seq<Row<V>>, held: map<Key, V>)
    requires AssociativeCommutative(f) && Fold(f, map[], flushed) == held
    ensures Fold(f, map[], sent + flushed) == Merge(f, Fold(f, map[], sent), held)
  {
    FoldConcat(f, map[], sent, flushed);
    FoldIsMerge(f, Fold(f, map[], sent), flushed);
  }

  lemma {:induction false} FoldSize<V(!new)>(f: (V, V) -> V, spilled: map<Key, V>, held: map<Key, V>, rows: seq<Row<V>>)
    requires Merge(f, spilled, held) == Fold(f, map[], rows)
    ensures |held| <= |KeysOf(rows)|
  {
    FoldMeaning(f, rows);
    assert held.Keys <= Merge(f, spilled, held).Keys;
    SubsetSize(held.Keys, KeysOf(rows));
  }

  /** The combine buffer of one task for one partition, in front of the combiner of that partition. */
  class Lane<V(!new)> {
    const pcomb: CombiningFrame<V>
    const combiner: Combiner<V>
    ghost var history: seq<Row<V>>
    ghost var Repr: set<object>

    ghost predicate Apart()
      reads this, Repr
    {
      && {this, pcomb, combiner, combiner.comb} <= Repr
      && Repr == {this, pcomb, pcomb.data, pcomb.hits, combiner, combiner.comb, combiner.comb.data, combiner.comb.hits}
      && pcomb != combiner.comb && pcomb.data != combiner.comb.data && pcomb.hits != combiner.comb.hits
    }

    ghost predicate Valid()
      reads this, Repr
      ensures Valid() ==> this in Repr
    {
      && Apart() && pcomb.Valid() && combiner.Valid() && pcomb.combiner == combiner.f
      && Merge(combiner.f, Fold(combiner.f, map[], combiner.history), pcomb.Contents()) ==
        Fold(combiner.f, map[], history)
    }

    constructor (job: Job<V>)
      requires job.Proper()
      ensures Valid() && fresh(Repr) && history == [] && combiner.f == job.f
    {
      hide AssociativeCommutative, IsSort, ListsAll, Merge, Fold, PowerOfTwo, pcomb.InOrder, pcomb.Contents, Reduced;
      NothingHeld(job.f);
      pcomb := new CombiningFrame(job.f, job.hash, job.zero, 8, 1);
      combiner := new Combiner(job.f, job.chunk * 100, job.sort, job.hash, job.zero, job.initSize, job.nscratch);
      history := [];
      new;
      Repr := {this, pcomb, pcomb.data, pcomb.hits, combiner, combiner.comb, combiner.comb.data, combiner.comb.hits};
    }

    ghost method Refoot()
      modifies this`Repr
      ensures Repr == {this, pcomb, pcomb.data, pcomb.hits, combiner, combiner.comb, combiner.comb.data,
                       combiner.comb.hits}
    {
      Repr := {this, pcomb, pcomb.data, pcomb.hits, combiner, combiner.comb, combiner.comb.data, combiner.comb.hits};
    }

    /**
     Combines a row into the task's buffer. When the buffer is more than half
     full it is flushed into the combiner: always if it holds 8 keys or more,
     otherwise if the combiner is available.
     */
    method Accept(r: Row<V>, available: bool) returns (ok: bool)
      requires Valid()
      modifies Repr
      ensures ok ==> Valid() && fresh(Repr - old(Repr)) && history == old(history) + [r]
      ensures ok ==> var keys := |Fold(combiner.f, old(pcomb.Contents()), [r])|;
                pcomb.Len() == if keys <= pcomb.Cap() / 2 || (keys < 8 && !available) then keys else 0
      ensures !ok ==> Overfull(old(history) + [r])
    {
      hide Fold, Overfull, pcomb.Contents, pcomb.Valid, combiner.Valid, Merge;
      ok := Buffer(r);
      if !ok {
        return;
      }
      var len, cap := pcomb.Len(), pcomb.Cap();
      if len <= cap / 2 || (len < 8 && !available) {
        return;
      }
      ok := Flush();
    }

    /** Combines a row into the task's buffer. */
    method Buffer(r: Row<V>) returns (ok: bool)
      requires Valid()
      modifies Repr
      ensures ok ==> Valid() && fresh(Repr - old(Repr)) && history == old(history) + [r]
      ensures ok ==> pcomb.Len() == |Fold(combiner.f, old(pcomb.Contents()), [r])|
      ensures !ok ==> Overfull(old(history) + [r])
    {
      hide AssociativeCommutative, IsSort, Merge, Fold, Reduced, StrictlySorted, pcomb.Contents, Table.Valid, Count,
           Overfull;
      ghost var f, sent, held := combiner.f, Fold(combiner.f, map[], combiner.history), pcomb.Contents();
      CombineKeeps(f, sent, held, history, [r]);
      Overflows(f, sent, Fold(f, held, [r]), history + [r]);
      ok := pcomb.Combine([r]);
      if ok {
        history := history + [r];
        Refoot();
      }
    }

    /** Moves what is in the task's buffer into the combiner. */
    method Flush() returns (ok: bool)
      requires Valid()
      modifies Repr
      ensures ok ==> Valid() && fresh(Repr - old(Repr)) && history == old(history) && pcomb.Cap() == old(pcomb.Cap())
      ensures ok ==> pcomb.Len() == 0 && Fold(combiner.f, map[], combiner.history) == Fold(combiner.f, map[], history)
      ensures !ok ==> Overfull(old(history))
    {
      hide AssociativeCommutative, IsSort, Merge, Fold, Reduced, StrictlySorted, pcomb.Contents, Table.Valid, Count,
           Overfull;
      ghost var f, sent, held := combiner.f, combiner.history, pcomb.Contents();
      var flushed := pcomb.Compact();
      FlushKeeps(f, sent, flushed, held);
      FlushOverflows(f, Reduced(f, combiner.spills), combiner.comb.Contents(), sent, flushed, history);
      MergeUnit(f, Fold(f, map[], sent + flushed));
      ok := combiner.Combine(flushed);
      if ok {
        Refoot();
      }
    }

    /** What the combiner holds, written out. */
    method Commit(job: Job<V>) returns (rows: seq<Row<V>>)
      requires Valid() && job.Proper() && job.f == combiner.f
      modifies Repr
      ensures StrictlySorted(rows) && Fold(job.f, map[], rows) == old(Fold(job.f, map[], combiner.history))
    {
      hide AssociativeCommutative, IsSort, Merge, Fold, Reduced, StrictlySorted, pcomb.Contents, Table.Valid, Count,
           ListsAll;
      var r := combiner.Reader(job.list, job.chunk);
      rows := DrainReduced(r, job.frames);
    }
  }

  lemma NothingHeld<V(!new)>(f: (V, V) -> V)
    ensures Merge(f, Fold(f, map[], []), map[]) == Fold(f, map[], [])
    ensures PowerOfTwo(8)
  {
    assert PowerOfTwo(1) && PowerOfTwo(2) && PowerOfTwo(4);
  }

  lemma Overflows<V(!new)>(f: (V, V) -> V, spilled: map<Key, V>, held: map<Key, V>, rows: seq<Row<V>>)
    requires Merge(f, spilled, held) == Fold(f, map[], rows)
    ensures |held| > Threshold(HASH_MAX_CAPACITY) ==> Overfull(rows)
  {
    FoldSize(f, spilled, held, rows);
  }

  lemma FlushOverflows<V(!new)>(f: (V, V) -> V, spilled: map<Key, V>, held: map<Key, V>, sent: seq<Row<V>>,
                                flushed: seq<Row<V>>, history: seq<Row<V>>)
    requires AssociativeCommutative(f) && Merge(f, spilled, held) == Fold(f, map[], sent)
    requires Fold(f, map[], sent + flushed) == Fold(f, map[], history)
    ensures |Fold(f, held, flushed)| > Threshold(HASH_MAX_CAPACITY) ==> Overfull(history)
  {
    hide AssociativeCommutative, Merge, Fold, Overfull;
    CombineKeeps(f, spilled, held, sent, flushed);
    Overflows(f, spilled, Fold(f, held, flushed), history);
  }

  /** Separate lanes, one for each partition, that have taken the given rows. */
  ghost predicate Laned<V(!new)>(job: Job<V>, part: Row<V> -> nat, lanes: seq<Lane<V>>, rows: seq<Row<V>>)
    reads *
  {
    && (forall p: nat :: p < |lanes| ==>
          && lanes[p].Valid() && lanes[p].combiner.f == job.f
          && lanes[p].history == PartOf(part, |lanes|, rows, p))
    && (forall p: nat, q: nat :: p < q < |lanes| ==> lanes[p].Repr !! lanes[q].Repr)
  }

  method OpenLanes<V(!new)>(job: Job<V>, part: Row<V> -> nat, nparts: nat) returns (lanes: seq<Lane<V>>)
    requires job.Proper()
    ensures |lanes| == nparts && Laned(job, part, lanes, [])
    ensures forall p: nat :: p < |lanes| ==> fresh(lanes[p].Repr)
  {
    hide Lane.Valid, job.Proper, Merge, Fold, AssociativeCommutative;
    lanes := [];
    for i := 0 to nparts
      invariant |lanes| == i
      invariant forall p: nat :: p < i ==> fresh(lanes[p].Repr)
      invariant forall p: nat :: p < i ==> lanes[p].Valid() && lanes[p].combiner.f == job.f && lanes[p].history == []
      invariant forall p: nat, q: nat :: p < q < i ==> lanes[p].Repr !! lanes[q].Repr
    {
      var lane := new Lane(job);
      lanes := lanes + [lane];
    }
  }

  /** One row goes to the lane of its partition. */
  method AcceptRow<V(!new)>(job: Job<V>, part: Row<V> -> nat, lanes: seq<Lane<V>>, ghost done: seq<Row<V>>, r: Row<V>,
                            available: bool)
    returns (ok: bool)
    requires Laned(job, part, lanes, done) && part(r) < |lanes|
    modifies set p: nat, o | p < |lanes| && o in lanes[p].Repr :: o
    ensures ok ==> Laned(job, part, lanes, done + [r])
    ensures ok ==> forall p: nat :: p < |lanes| ==> fresh(lanes[p].Repr - old(lanes[p].Repr))
    ensures !ok ==> exists p: nat :: p < |lanes| && Overfull(PartOf(part, |lanes|, done + [r], p))
  {
    hide Lane.Valid, Overfull, PartOf, Merge, Fold, AssociativeCommutative;
    var p := part(r);
    BufferStep(part, |lanes|, done, r);
    ok := lanes[p].Accept(r, available);
  }

  method AcceptRows<V(!new)>(job: Job<V>, part: Row<V> -> nat, lanes: seq<Lane<V>>, ghost done: seq<Row<V>>,
                             rows: seq<Row<V>>, available: nat -> bool)
    returns (ok: bool)
    requires Laned(job, part, lanes, done) && forall r :: part(r) < |lanes|
    modifies set p: nat, o | p < |lanes| && o in lanes[p].Repr :: o
    ensures ok ==> Laned(job, part, lanes, done + rows)
    ensures ok ==> forall p: nat :: p < |lanes| ==> fresh(lanes[p].Repr - old(lanes[p].Repr))
    ensures !ok ==> exists p: nat :: p < |lanes| && Overfull(PartOf(part, |lanes|, done + rows, p))
  {
    hide Laned, Overfull, PartOf;
    assert done + rows[..0] == done;
    for i := 0 to |rows|
      invariant Laned(job, part, lanes, done + rows[..i])
      invariant forall p: nat :: p < |lanes| ==> fresh(lanes[p].Repr - old(lanes[p].Repr))
    {
      assert (done + rows[..i]) + [rows[i]] == done + rows[..i + 1];
      ok := AcceptRow(job, part, lanes, done + rows[..i], rows[i], available(i));
      if !ok {
        OverfullPart(part, |lanes|, done + rows[..i + 1], done + rows);
        return;
      }
    }
    assert rows[..|rows|] == rows;
    ok := true;
  }

  /** Reads the output of a task and combines it, row by row, into its lanes. */
  method CombineOutput<V(!new)>(job: Job<V>, part: Row<V> -> nat, lanes: seq<Lane<V>>, output: Reader<V>,
                                available: nat -> bool)
    returns (ok: bool)
    requires job.chunk > 0 && Laned(job, part, lanes, []) && forall r :: part(r) < |lanes|
    modifies set p: nat, o | p < |lanes| && o in lanes[p].Repr :: o
    ensures ok ==> Laned(job, part, lanes, output.rest)
    ensures ok ==> forall p: nat :: p < |lanes| ==> fresh(lanes[p].Repr - old(lanes[p].Repr))
    ensures !ok ==> exists p: nat :: p < |lanes| && Overfull(PartOf(part, |lanes|, output.rest, p))
  {
    hide Laned, Overfull, PartOf;
    var reader, step := output, 0;
    ghost var done: seq<Row<V>> := [];
    while true
      invariant done + reader.rest == output.rest && Laned(job, part, lanes, done)
      invariant forall p: nat :: p < |lanes| ==> fresh(lanes[p].Repr - old(lanes[p].Repr))
      decreases |reader.rest|, true
    {
      var n, eof := reader.Take(job.chunk), reader.Ends(job.chunk);
      var rows := reader.rest[..n];
      TakeMore(done, reader.rest, n, output.rest);
      ok := AcceptRows(job, part, lanes, done, rows, (i: nat) => available(step + i));
      if !ok {
        OverfullPart(part, |lanes|, done + rows, output.rest);
        return;
      }
      step := step + n;
      done := done + rows;
      reader := reader.After(job.chunk);
      if eof {
        break;
      }
    }
    assert done == output.rest;
    ok := true;
  }

  lemma OverfullPart<V(!new)>(part: Row<V> -> nat, nparts: nat, some: seq<Row<V>>, all: seq<Row<V>>)
    requires some <= all && exists p: nat :: p < nparts && Overfull(PartOf(part, nparts, some, p))
    ensures exists p: nat :: p < nparts && Overfull(PartOf(part, nparts, all, p))
  {
    hide Overfull;
    var p: nat :| p < nparts && Overfull(PartOf(part, nparts, some, p));
    assert all == some + all[|some|..];
    PartOfConcat(part, nparts, some, all[|some|..], p);
    OverfullStays(PartOf(part, nparts, some, p), PartOf(part, nparts, all[|some|..], p));
  }

  /** Flushes and commits each lane. */
  method CommitLanes<V(!new)>(job: Job<V>, part: Row<V> -> nat, lanes: seq<Lane<V>>, ghost rows: seq<Row<V>>)
    returns (ok: bool, files: seq<seq<Row<V>>>)
    requires job.Proper() && Laned(job, part, lanes, rows)
    modifies set p: nat, o | p < |lanes| && o in lanes[p].Repr :: o
    ensures ok ==> Committed(job.f, part, |lanes|, rows, files)
    ensures !ok ==> exists p: nat :: p < |lanes| && Overfull(PartOf(part, |lanes|, rows, p))
  {
    hide Lane.Valid, Overfull, PartOf, Merge, Fold, AssociativeCommutative, StrictlySorted, job.Proper;
    files := [];
    for i := 0 to |lanes|
      invariant |files| == i
      invariant forall p: nat :: i <= p < |lanes| ==>
                  && lanes[p].Valid() && lanes[p].combiner.f == job.f && lanes[p].Repr == old(lanes[p].Repr)
                  && lanes[p].history == PartOf(part, |lanes|, rows, p)
      invariant forall p: nat, q: nat :: i <= p < q < |lanes| ==> lanes[p].Repr !! lanes[q].Repr
      invariant forall p: nat :: p < i ==>
                  StrictlySorted(files[p]) &&
                    Fold(job.f, map[], files[p]) == Fold(job.f, map[], PartOf(part, |lanes|, rows, p))
    {
      ok := lanes[i].Flush();
      if !ok {
        return;
      }
      var file := lanes[i].Commit(job);
      files := files + [file];
    }
    ok := true;
  }

  /** What a producer has committed: for each partition, its rows combined and sorted. */
  ghost predicate Committed<V(!new)>(f: (V, V) -> V, part: Row<V> -> nat, nparts: nat, rows: seq<Row<V>>,
                                     files: seq<seq<Row<V>>>) {
    && |files| == nparts
    && forall p: nat :: p < nparts ==>
         StrictlySorted(files[p]) && Fold(f, map[], files[p]) == Fold(f, map[], PartOf(part, nparts, rows, p))
  }

  /** A producer on a worker, with combiners of its own. */
  method RunCombine<V(!new)>(job: Job<V>, part: Row<V> -> nat, nparts: nat, output: Reader<V>, available: nat -> bool)
    returns (ok: bool, files: seq<seq<Row<V>>>)
    requires job.Proper() && forall r :: part(r) < nparts
    ensures ok ==> Committed(job.f, part, nparts, output.rest, files)
    ensures !ok ==> exists p: nat :: p < nparts && Overfull(PartOf(part, nparts, output.rest, p))
  {
    hide Laned, Overfull, PartOf, Committed;
    files := [];
    var lanes := OpenLanes(job, part, nparts);
    ok := CombineOutput(job, part, lanes, output, available);
    if ok {
      ok, files := CommitLanes(job, part, lanes, output.rest);
    }
  }

  // The rows of a shard of the reduced slice.

  /** The rows of partition p of all producers. */
  ghost function ShardRows<V(!new)>(part: Row<V> -> nat, nparts: nat, outputs: seq<Reader<V>>,
                                    p: nat): seq<seq<Row<V>>> {
    seq(|outputs|, j requires 0 <= j < |outputs| => PartOf(part, nparts, outputs[j].rest, p))
  }

  /** Runs that amount to the same, one by one, reduce to the same. */
  lemma {:induction false} ReducedPointwise<V(!new)>(f: (V, V) -> V, a: seq<seq<Row<V>>>, b: seq<seq<Row<V>>>)
    requires AssociativeCommutative(f) && |a| == |b|
    requires forall i :: 0 <= i < |a| ==> Fold(f, map[], a[i]) == Fold(f, map[], b[i])
    ensures Reduced(f, a) == Reduced(f, b)
  {
    if a != [] {
      var n := |a| - 1;
      assert a == a[..n] + [a[n]] && b == b[..n] + [b[n]];
      ReducedPointwise(f, a[..n], b[..n]);
      ReducedAppend(f, a[..n], a[n]);
      ReducedAppend(f, b[..n], b[n]);
      FoldIsMerge(f, Reduced(f, a[..n]), a[n]);
      FoldIsMerge(f, Reduced(f, b[..n]), b[n]);
    }
  }

  /** The consumer: a single stream is passed on, several are merged. */
  method ReduceShard<V(!new)>(job: Job<V>, deps: seq<Reader<V>>) returns (out: seq<Row<V>>)
    requires job.Proper() && forall i :: 0 <= i < |deps| ==> StrictlySorted(deps[i].rest)
    ensures StrictlySorted(out) && Fold(job.f, map[], out) == Reduced(job.f, Rests(deps))
  {
    hide Reduced, Fold, StrictlySorted, AssociativeCommutative, IsSort, ListsAll;
    if |deps| == 1 {
      OneRun(job.f, deps);
      var rest;
      out, rest := ReadAll(deps[0], job.frames);
    } else {
      var r := new Reducer(deps, job.chunk, job.f);
      out := DrainReduced(r, job.frames);
    }
  }

  lemma OneRun<V(!new)>(f: (V, V) -> V, deps: seq<Reader<V>>)
    requires |deps| == 1 && AssociativeCommutative(f)
    ensures Reduced(f, Rests(deps)) == Fold(f, map[], deps[0].rest)
  {
    assert Rests(deps) == [] + [deps[0].rest];
    ReducedAppend(f, [], deps[0].rest);
  }

  /** Reads a stream to its end. */
  method ReadAll<V(!new)>(reader: Reader<V>, frames: nat -> nat) returns (out: seq<Row<V>>, rest: Reader<V>)
    requires forall i :: frames(i) > 0
    ensures out == reader.rest && rest.rest == []
  {
    out, rest := [], reader;
    var i, eof := 0, false;
    while !eof
      invariant out + rest.rest == reader.rest && (eof ==> rest.rest == [])
      decreases |rest.rest|, !eof
    {
      var max := frames(i);
      eof := rest.Ends(max);
      TakeMore(out, rest.rest, rest.Take(max), reader.rest);
      out, rest, i := out + rest.rest[..rest.Take(max)], rest.After(max), i + 1;
    }
  }

  /** One more producer has committed. */
  lemma OneMore<V(!new)>(f: (V, V) -> V, part: Row<V> -> nat, nparts: nat, outputs: seq<Reader<V>>, p: nat, i: nat,
                         runs: seq<seq<Row<V>>>, files: seq<seq<Row<V>>>)
    requires i < |outputs| && p < nparts && |runs| == i && Committed(f, part, nparts, outputs[i].rest, files)
    requires Matches(f, runs, ShardRows(part, nparts, outputs, p)[..i])
    ensures Matches(f, runs + [files[p]], ShardRows(part, nparts, outputs, p)[..i + 1])
  {
    hide Fold, StrictlySorted, PartOf;
  }

  /** Sorted, combined runs that amount to the given runs, one by one. */
  ghost predicate Matches<V(!new)>(f: (V, V) -> V, runs: seq<seq<Row<V>>>, rows: seq<seq<Row<V>>>) {
    && |runs| == |rows|
    && forall i :: 0 <= i < |runs| ==> StrictlySorted(runs[i]) && Fold(f, map[], runs[i]) == Fold(f, map[], rows[i])
  }

  /**
   Combining at the producers, under any flush schedule, and merging what
   they committed. The consumer opens the files in any order.
   */
  method Distributed<V(!new)>(job: Job<V>, part: Row<V> -> nat, nparts: nat, outputs: seq<Reader<V>>, p: nat,
                              available: (nat, nat) -> bool, open: seq<seq<Row<V>>> -> seq<Reader<V>>)
    returns (ok: bool, out: seq<Row<V>>)
    requires job.Proper() && p < nparts && ListsAll(open) && forall r :: part(r) < nparts
    ensures ok ==> StrictlySorted(out) && Fold(job.f, map[], out) == Reduced(job.f, ShardRows(part, nparts, outputs, p))
    ensures !ok ==>
              exists j: nat, q: nat :: j < |outputs| && q < nparts && Overfull(PartOf(part, nparts, outputs[j].rest, q))
  {
    hide Overfull, Fold, Reduced, StrictlySorted, Matches, PartOf, AssociativeCommutative, IsSort;
    var runs: seq<seq<Row<V>>> := [];
    out := [];
    NothingMatches(job.f, ShardRows(part, nparts, outputs, p));
    for i := 0 to |outputs|
      invariant |runs| == i && Matches(job.f, runs, ShardRows(part, nparts, outputs, p)[..i])
    {
      var files;
      ok, files := RunCombine(job, part, nparts, outputs[i], (step: nat) => available(i, step));
      if !ok {
        return;
      }
      OneMore(job.f, part, nparts, outputs, p, i, runs, files);
      runs := runs + [files[p]];
    }
    ok := true;
    var deps := open(runs);
    Opened(job.f, runs, deps, ShardRows(part, nparts, outputs, p));
    out := ReduceShard(job, deps);
  }

  lemma NothingMatches<V(!new)>(f: (V, V) -> V, rows: seq<seq<Row<V>>>)
    ensures Matches(f, [], rows[..0])
  {
  }

  lemma Opened<V(!new)>(f: (V, V) -> V, runs: seq<seq<Row<V>>>, deps: seq<Reader<V>>, rows: seq<seq<Row<V>>>)
    requires AssociativeCommutative(f) && Matches(f, runs, rows[..|rows|]) && multiset(Rests(deps)) == multiset(runs)
    ensures Reduced(f, Rests(deps)) == Reduced(f, rows)
    ensures forall i :: 0 <= i < |deps| ==> StrictlySorted(deps[i].rest)
  {
    hide AssociativeCommutative, Reduced, Fold, StrictlySorted;
    assert rows[..|rows|] == rows;
    ReducedPermuted(f, Rests(deps), runs);
    ReducedPointwise(f, runs, rows);
    forall i | 0 <= i < |deps|
      ensures StrictlySorted(deps[i].rest)
    {
      assert Rests(deps)[i] in multiset(Rests(deps));
      assert deps[i].rest in multiset(runs);
    }
  }

  /** Combining while reading: all producers' rows of the partition go through one combiner. */
  method Local<V(!new)>(job: Job<V>, part: Row<V> -> nat, nparts: nat, outputs: seq<Reader<V>>, p: nat,
                        open: (nat, seq<Row<V>>) -> Reader<V>)
    returns (ok: bool, out: seq<Row<V>>)
    requires job.Proper() && p < nparts && ReadsBack(open) && InRange(part, nparts)
    ensures ok ==> StrictlySorted(out) && Fold(job.f, map[], out) == Reduced(job.f, ShardRows(part, nparts, outputs, p))
    ensures !ok ==> Overfull(Flatten(ShardRows(part, nparts, outputs, p)))
  {
    hide Overfull, Fold, Reduced, StrictlySorted, PartOf, AssociativeCommutative, IsSort, Flatten, Chain, ListsAll;
    out := [];
    ghost var shard := ShardRows(part, nparts, outputs, p);
    var q: seq<Reader<V>> := [];
    NoParts(shard);
    ChainEmpty<V>();
    for i := 0 to |outputs|
      invariant |q| == i && Chain(q) == Flatten(shard[..i]) && forall j :: 0 <= j < |q| ==> Patient(q[j])
    {
      var buf := BufferOutput(outputs[i], part, nparts, job.chunk);
      FlattenNext(shard, i);
      var r := open(i, Flatten(buf[p]));
      ChainAppend(q, r);
      q := q + [r];
    }
    assert shard[..|shard|] == shard;
    ReducedIsFold(job.f, shard);
    var c := new Combiner(job.f, job.chunk * 100, job.sort, job.hash, job.zero, job.initSize, job.nscratch);
    ok := CombineReader(c, q, job.chunk);
    if ok {
      var r := c.Reader(job.list, job.chunk);
      out := DrainReduced(r, job.frames);
    }
  }

  lemma ChainEmpty<V(!new)>()
    ensures Chain<V>([]) == []
  {
  }

  lemma {:induction false} ChainAppend<V(!new)>(q: seq<Reader<V>>, r: Reader<V>)
    ensures Chain(q + [r]) == Chain(q) + r.rest
  {
    if q != [] {
      assert (q + [r])[1..] == q[1..] + [r];
      ChainAppend(q[1..], r);
    }
  }

  /** Reads everything through one reader, combining frame by frame. */
  method CombineReader<V(!new)>(c: Combiner<V>, q: seq<Reader<V>>, chunk: nat) returns (ok: bool)
    requires c.Valid() && c.history == [] && chunk > 0 && forall j :: 0 <= j < |q| ==> Patient(q[j])
    modifies c, c.comb, c.comb.data, c.comb.hits
    ensures fresh(c.comb.data) || c.comb.data == old(c.comb.data)
    ensures fresh(c.comb.hits) || c.comb.hits == old(c.comb.hits)
    ensures ok ==> c.Valid() && c.history == Chain(q)
    ensures !ok ==> Overfull(Chain(q))
  {
    hide Fold, c.Valid, c.comb.Shaped, c.comb.Contents, Overfull, Chain, MultiReader.Valid, Threshold;
    var reader := new MultiReader(q);
    var eof := false;
    ghost var all := Chain(q);
    while !eof
      invariant c.Valid() && reader.Valid() && fresh(reader) && c.history + reader.Rest() == all
      invariant eof ==> reader.Rest() == []
      invariant fresh(c.comb.data) || c.comb.data == old(c.comb.data)
      invariant fresh(c.comb.hits) || c.comb.hits == old(c.comb.hits)
      decreases |reader.Rest()|, !eof
    {
      var rows;
      rows, eof := reader.Read(chunk);
      CombineOverflows(c, rows, all);
      ok := c.Combine(rows);
      if !ok {
        return;
      }
    }
    ok := true;
  }

  lemma CombineOverflows<V(!new)>(c: Combiner<V>, rows: seq<Row<V>>, all: seq<Row<V>>)
    requires c.Valid() && c.history + rows <= all
    ensures c.comb.Shaped() && (|Fold(c.f, c.comb.Contents(), rows)| > Threshold(HASH_MAX_CAPACITY) ==> Overfull(all))
  {
    hide AssociativeCommutative, IsSort, Merge, Fold, KeysOf, Table.Valid, Count, Reduced, StrictlySorted;
    OverflowMeans(c.f, Reduced(c.f, c.spills), c.comb.Contents(), c.history, rows, all);
  }

  /** Strictly increasing rows are determined by what they amount to. */
  lemma {:induction false} SameRows<V(!new)>(f: (V, V) -> V, a: seq<Row<V>>, b: seq<Row<V>>)
    requires StrictlySorted(a) && StrictlySorted(b) && Fold(f, map[], a) == Fold(f, map[], b)
    ensures a == b
  {
    hide Fold;
    FoldMeaning(f, a);
    FoldMeaning(f, b);
    SameKeys(a, b, |a|);
    SameKeys(b, a, |b|);
    FoldDistinct(f, a);
    FoldDistinct(f, b);
  }

  lemma {:induction false} SameKeys<V(!new)>(a: seq<Row<V>>, b: seq<Row<V>>, n: nat)
    requires StrictlySorted(a) && StrictlySorted(b) && KeysOf(a) == KeysOf(b) && n <= |a|
    ensures n <= |b| && forall i :: 0 <= i < n ==> a[i].key == b[i].key
  {
    if n > 0 {
      SameKeys(a, b, n - 1);
      var k := a[n - 1].key;
      assert k in KeysOf(a);
      var j :| 0 <= j < |b| && b[j].key == k;
      assert j >= n - 1;
      var k' := b[n - 1].key;
      assert k' in KeysOf(b);
      var i :| 0 <= i < |a| && a[i].key == k';
      assert i >= n - 1;
    }
  }

  /**
   Both strategies give every shard the same rows: each key of the shard's
   partition once, in order, with the reduction of all its values.
   */
  method ReduceBothWays<V(!new)>(job: Job<V>, part: Row<V> -> nat, nparts: nat, outputs: seq<Reader<V>>, p: nat,
                                 openLocal: (nat, seq<Row<V>>) -> Reader<V>,
                                 available: (nat, nat) -> bool, open: seq<seq<Row<V>>> -> seq<Reader<V>>)
    returns (okLocal: bool, local: seq<Row<V>>, okDistributed: bool, distributed: seq<Row<V>>)
    requires job.Proper() && p < nparts && ReadsBack(openLocal) && ListsAll(open) && forall r :: part(r) < nparts
    ensures okLocal ==> Collected(job.f, Flatten(ShardRows(part, nparts, outputs, p)), local)
    ensures okDistributed ==> Collected(job.f, Flatten(ShardRows(part, nparts, outputs, p)), distributed)
    ensures okLocal && okDistributed ==> distributed == local
    ensures !okLocal ==> Overfull(Flatten(ShardRows(part, nparts, outputs, p)))
    ensures !okDistributed ==>
              exists j: nat, q: nat :: j < |outputs| && q < nparts && Overfull(PartOf(part, nparts, outputs[j].rest, q))
  {
    hide Overfull, Fold, Reduced, StrictlySorted, PartOf, AssociativeCommutative, IsSort, Flatten, Collected,
         ShardRows, ListsAll;
    okLocal, local := Local(job, part, nparts, outputs, p, openLocal);
    okDistributed, distributed := Distributed(job, part, nparts, outputs, p, available, open);
    ReducedIsFold(job.f, ShardRows(part, nparts, outputs, p));
    if okLocal {
      CollectedFold(job.f, Flatten(ShardRows(part, nparts, outputs, p)), local);
    }
    if okDistributed {
      CollectedFold(job.f, Flatten(ShardRows(part, nparts, outputs, p)), distributed);
    }
    if okLocal && okDistributed {
      SameRows(job.f, local, distributed);
    }
  }
}
