/**
 Merging sorted readers, and sorting a reader through sorted runs
 (sortio/sort.go).
 */
module MergeReader {
  import opened Rows
  import opened Heaps
  import opened Monoids
  import opened Streams

  /** All rows of a set of runs. */
  ghost function RunRows<V(!new)>(runs: seq<seq<Row<V>>>): multiset<Row<V>> {
    Total(Plus, multiset{}, run => multiset(run), runs)
  }

  /** All rows of a set of readers. */
  ghost function RowsOf<V(!new)>(readers: seq<Reader<V>>): multiset<Row<V>> {
    RunRows(Rests(readers))
  }

  lemma RowsOfNext<V(!new)>(readers: seq<Reader<V>>, i: nat)
    requires i < |readers|
    ensures RowsOf(readers[..i + 1]) == RowsOf(readers[..i]) + multiset(readers[i].rest)
  {
    assert Rests(readers[..i + 1]) == Rests(readers[..i]) + [readers[i].rest];
    TotalAppend(Plus, multiset{}, run => multiset(run), Rests(readers[..i]), readers[i].rest);
  }

  const ALL_INPUTS: nat -> bool := _ => true

  /** All keys of a are at most all keys of b. */
  ghost predicate Before<V(!new)>(a: seq<Row<V>>, b: multiset<Row<V>>) {
    forall i, r :: 0 <= i < |a| && r in b ==> a[i].key <= r.key
  }

  /** The rows in `out` have been merged out of `all`, and the heap holds the rest. */
  ghost predicate Merged<V(!new)>(out: seq<Row<V>>, heap: seq<FrameBuffer<V>>, all: multiset<Row<V>>) {
    && Ready(heap) && Sorted(out)
    && multiset(out) + Pool(heap, ALL_INPUTS) == all
    && Before(out, Pool(heap, ALL_INPUTS))
  }

  lemma NothingMerged<V(!new)>(heap: seq<FrameBuffer<V>>)
    requires Ready(heap)
    ensures Merged([], heap, Pool(heap, ALL_INPUTS))
  {
  }

  lemma MergeStep<V(!new)>(out: seq<Row<V>>, heap: seq<FrameBuffer<V>>, heap': seq<FrameBuffer<V>>,
                           all: multiset<Row<V>>)
    requires Merged(out, heap, all) && heap != [] && Ready(heap') && multiset(heap') == multiset(Onward(heap))
    ensures Merged(out + [heap[0].Current()], heap', all)
  {
    hide Ready, Pool, Onward;
    ReadyRoot(heap);
    var r, rest, rest' := heap[0].Current(), Pool(heap, ALL_INPUTS), Pool(heap', ALL_INPUTS);
    PoolAdvanced(heap, heap', ALL_INPUTS);
    assert multiset(out + [r]) + rest' == all by {
      assert multiset(out + [r]) == multiset(out) + multiset{r};
      Reassociate(multiset(out), multiset{r}, rest');
    }
    assert r in rest;
    forall x | x in rest'
      ensures r.key <= x.key
    {
      assert x in rest;
      RootRowIsLeast(heap, ALL_INPUTS, x);
    }
  }

  lemma ReadyRoot<V(!new)>(heap: seq<FrameBuffer<V>>)
    requires Ready(heap) && heap != []
    ensures heap[0].Loaded()
  {
  }

  lemma RestEmpty<V(!new)>(heap: seq<FrameBuffer<V>>)
    requires Ready(heap)
    ensures Pool(heap, ALL_INPUTS) == multiset{} <==> heap == []
  {
    if heap != [] {
      PoolNotEmpty(heap, ALL_INPUTS);
    }
  }

  /** One more reader has been looked at, and its buffer kept if it has data. */
  lemma FillStep<V(!new)>(bufs: seq<FrameBuffer<V>>, readers: seq<Reader<V>>, i: nat, b: FrameBuffer<V>)
    requires i < |readers| && AllGood(bufs) && Pool(bufs, ALL_INPUTS) == RowsOf(readers[..i])
    requires Sorted(readers[i].rest) && b.reader == readers[i] && b.frame == [] && b.index == 0 && b.cap > 0
    ensures match b.Fill()
            case EOF => Pool(bufs, ALL_INPUTS) == RowsOf(readers[..i + 1])
            case Filled(b') => AllGood(bufs + [b']) && Pool(bufs + [b'], ALL_INPUTS) == RowsOf(readers[..i + 1])
  {
    hide Pool, AllGood, Sorted;
    RowsOfNext(readers, i);
    if b.Fill().Filled? {
      PoolAppend(bufs, b.Fill().buf, ALL_INPUTS);
      GoodAppend(bufs, b.Fill().buf);
    }
  }

  class MergeReader<V(!new)> {
    var heap: seq<FrameBuffer<V>>
    var done: bool

    ghost predicate Valid()
      reads this
    {
      Ready(heap)
    }

    /** The rows still to come. */
    ghost function Rest(): multiset<Row<V>>
      reads this
    {
      Pool(heap, ALL_INPUTS)
    }

    /** Fills a buffer from each reader; readers without data are skipped. */
    constructor (readers: seq<Reader<V>>, batch: nat)
      requires batch > 0 && forall i :: 0 <= i < |readers| ==> Sorted(readers[i].rest)
      ensures Valid() && !done && Rest() == RowsOf(readers)
    {
      hide AllGood, IsHeap, Pool, Sorted;
      var bufs: seq<FrameBuffer<V>> := [];
      NoBuffers<V>();
      for i := 0 to |readers|
        invariant AllGood(bufs) && Pool(bufs, ALL_INPUTS) == RowsOf(readers[..i])
      {
        var fr := FrameBuffer(i * batch, batch, [], 0, readers[i]);
        FillStep(bufs, readers, i, fr);
        match fr.Fill() {
          case EOF =>
          case Filled(b) =>
            bufs := bufs + [b];
        }
      }
      assert readers[..|readers|] == readers;
      var h := Init(bufs, ByKey);
      GoodStay(bufs, h);
      PoolPermuted(h, bufs, ALL_INPUTS);
      heap, done := h, false;
    }

    /** Reads up to max rows, in order. */
    method Read(max: nat) returns (out: seq<Row<V>>, eof: bool)
      requires Valid() && max > 0
      modifies this
      ensures Valid() && done == eof && |out| <= max
      ensures old(done) ==> out == [] && eof && heap == old(heap)
      ensures !old(done) ==> Merged(out, heap, old(Rest()))
      ensures !old(done) ==> (eof <==> old(Rest()) == multiset{}) && (eof <==> out == [])
    {
      hide Ready, Pool, Merged;
      if done {
        return [], true;
      }
      out := [];
      ghost var all := Rest();
      NothingMerged(heap);
      RestEmpty(heap);
      while |out| < max && heap != []
        invariant Valid() && Merged(out, heap, all) && done == old(done) && |out| <= max
        invariant if out == [] then heap == old(heap) else old(heap) != []
        decreases max - |out|
      {
        ghost var h := heap;
        ReadyRoot(heap);
        out := out + [heap[0].Current()];
        heap := AdvanceRoot(heap);
        MergeStep(out[..|out| - 1], h, heap, all);
        assert out[..|out| - 1] + [h[0].Current()] == out;
      }
      if out == [] {
        done := true;
      }
      eof := done;
    }
  }

  lemma NoBuffers<V(!new)>()
    ensures AllGood<V>([]) && Pool<V>([], ALL_INPUTS) == multiset{}
  {
  }

  // Sorting.

  /** A sort: the same rows, in order. Nothing is said about the order of equal keys. */
  ghost predicate IsSort<V(!new)>(sort: seq<Row<V>> -> seq<Row<V>>) {
    forall rows :: Sorted(sort(rows)) && multiset(sort(rows)) == multiset(rows)
  }

  /** Spilled runs are listed in any order and read back in any batches, but completely. */
  ghost predicate ListsAll<V(!new)>(list: seq<seq<Row<V>>> -> seq<Reader<V>>) {
    forall runs :: multiset(Rests(list(runs))) == multiset(runs)
  }

  /** Reads n rows unless the stream ends before. */
  method ReadFull<V(!new)>(reader: Reader<V>, n: nat) returns (rows: seq<Row<V>>, reader': Reader<V>, eof: bool)
    ensures rows + reader'.rest == reader.rest && |rows| <= n
    ensures if eof then reader'.rest == [] else |rows| == n
  {
    hide Reader.Take;
    rows, reader' := [], reader;
    while |rows| < n
      invariant rows + reader'.rest == reader.rest && |rows| <= n
      decreases n - |rows|
    {
      var m := reader'.Take(n - |rows|);
      var ends := reader'.Ends(n - |rows|);
      TakeMore(rows, reader'.rest, m, reader.rest);
      rows, reader' := rows + reader'.rest[..m], reader'.After(n - |rows|);
      if ends {
        return rows, reader', true;
      }
    }
    eof := false;
  }

  lemma WholeRows(encoded: nat, rows: nat, spillTarget: nat, batch: nat)
    requires 0 < rows <= encoded
    ensures encoded / rows >= 1
    ensures var b := encoded / rows;
            var fits := spillTarget / b;
            fits * b <= spillTarget < (fits + 1) * b && (fits < batch ==> spillTarget < (batch + 1) * b)
  {
    var b := encoded / rows;
    OneAtLeast(encoded, rows);
    var fits := spillTarget / b;
    Quotient(spillTarget, b);
    if fits < batch {
      AtLeast(fits + 1, batch + 1, b);
    }
  }

  lemma OneAtLeast(a: nat, b: nat)
    requires 0 < b <= a
    ensures a / b >= 1
  {
    assert a == b * (a / b) + a % b;
  }

  lemma Quotient(a: nat, b: nat)
    requires b > 0
    ensures (a / b) * b <= a < (a / b + 1) * b && a / b >= 0
  {
    assert a == b * (a / b) + a % b;
    assert (a / b + 1) * b == (a / b) * b + b;
  }

  lemma AtLeast(x: nat, y: nat, b: nat)
    requires x <= y
    ensures x * b <= y * b
  {
  }

  /** How many rows like those of the last run fit the target, but at least a batch. */
  function RunTarget(encoded: nat, rows: nat, spillTarget: nat, batch: nat): (target: nat)
    requires 0 < rows <= encoded
    ensures target >= batch && encoded / rows >= 1
    ensures spillTarget < (target + 1) * (encoded / rows)
    ensures target > batch ==> target * (encoded / rows) <= spillTarget
  {
    var bytesPerRow := encoded / rows;
    WholeRows(encoded, rows, spillTarget, batch);
    if spillTarget / bytesPerRow < batch then batch else spillTarget / bytesPerRow
  }

  function Gap(a: nat, b: nat): nat {
    if a < b then b - a else a - b
  }

  /** The size of the next run, which is within 5% of its target. */
  function NextRunSize(size: nat, encoded: nat, rows: nat, spillTarget: nat, batch: nat): (next: nat)
    requires 0 < rows <= encoded && size > 0 && batch > 0
    ensures var target := RunTarget(encoded, rows, spillTarget, batch);
            next > 0 && 20 * Gap(next, target) <= target
    ensures var target := RunTarget(encoded, rows, spillTarget, batch);
            20 * Gap(size, target) <= target ==> next == size
  {
    var target := RunTarget(encoded, rows, spillTarget, batch);
    if 20 * Gap(size, target) > target then target else size
  }

  /**
   Sorts a reader: sorted runs are spilled, each as long as the sizes of the
   previous ones suggest, and merged back. The merge holds exactly the rows of
   the input.
   */
  method SortReader<V(!new)>(spillTarget: nat, canary: nat, batch: nat, input: Reader<V>,
                             sort: seq<Row<V>> -> seq<Row<V>>,
                             encoded: seq<Row<V>> -> nat, list: seq<seq<Row<V>>> -> seq<Reader<V>>)
    returns (m: MergeReader<V>)
    requires canary > 0 && batch > 0 && IsSort(sort) && ListsAll(list)
    requires forall rows :: encoded(rows) >= |rows|
    ensures fresh(m) && m.Valid() && !m.done && m.Rest() == multiset(input.rest)
  {
    hide RunRows, Sorted, IsSort;
    var size, reader := canary, input;
    var runs: seq<seq<Row<V>>> := [];
    NoRuns<V>();
    while true
      invariant size > 0 && RunRows(runs) + multiset(reader.rest) == multiset(input.rest)
      invariant forall i :: 0 <= i < |runs| ==> Sorted(runs[i])
      decreases |reader.rest|
    {
      var rows, reader', eof := ReadFull(reader, size);
      SpillStep(runs, rows, sort, reader.rest, reader'.rest);
      var g := sort(rows);
      runs := runs + [g];
      reader := reader';
      if eof {
        break;
      }
      SameLength(g, rows);
      size := NextRunSize(size, encoded(g), |rows|, spillTarget, batch);
    }
    var readers := list(runs);
    Listed(runs, readers);
    m := new MergeReader(readers, batch);
  }

  lemma NoRuns<V(!new)>()
    ensures RunRows<V>([]) == multiset{}
  {
  }

  lemma SpillStep<V(!new)>(runs: seq<seq<Row<V>>>, rows: seq<Row<V>>, sort: seq<Row<V>> -> seq<Row<V>>,
                           rest: seq<Row<V>>, rest': seq<Row<V>>)
    requires IsSort(sort) && rows + rest' == rest
    ensures Sorted(sort(rows)) && multiset(sort(rows)) == multiset(rows)
    ensures RunRows(runs + [sort(rows)]) + multiset(rest') == RunRows(runs) + multiset(rest)
  {
    TotalAppend(Plus, multiset{}, run => multiset(run), runs, sort(rows));
    assert multiset(rest) == multiset(rows) + multiset(rest');
  }

  lemma SameLength<T>(a: seq<T>, b: seq<T>)
    requires multiset(a) == multiset(b)
    ensures |a| == |b|
  {
    assert |a| == |multiset(a)| && |b| == |multiset(b)|;
  }

  lemma Listed<V(!new)>(runs: seq<seq<Row<V>>>, readers: seq<Reader<V>>)
    requires multiset(Rests(readers)) == multiset(runs)
    requires forall i :: 0 <= i < |runs| ==> Sorted(runs[i])
    ensures RowsOf(readers) == RunRows(runs)
    ensures forall i :: 0 <= i < |readers| ==> Sorted(readers[i].rest)
  {
    PlusIsMonoid<Row<V>>();
    TotalPermuted(Plus, multiset{}, run => multiset(run), Rests(readers), runs);
    forall i | 0 <= i < |readers|
      ensures Sorted(readers[i].rest)
    {
      assert Rests(readers)[i] in multiset(Rests(readers));
      assert readers[i].rest in multiset(runs);
    }
  }

  /** Reads a merge to its end, with frames of any sizes. */
  method Drain<V(!new)>(m: MergeReader<V>, frames: nat -> nat) returns (out: seq<Row<V>>)
    requires m.Valid() && !m.done && forall i :: frames(i) > 0
    modifies m
    ensures m.done && Sorted(out) && multiset(out) == old(m.Rest())
  {
    hide Merged, Ready, Pool;
    out := [];
    ghost var all := m.Rest();
    NothingMerged(m.heap);
    var i := 0;
    while !m.done
      invariant Merged(out, m.heap, all) && m.Valid()
      invariant m.done ==> m.Rest() == multiset{}
      decreases |m.Rest()|, !m.done
    {
      ghost var before := m.heap;
      var rows, eof := m.Read(frames(i));
      Continue(out, rows, before, m.heap, all);
      out := out + rows;
      i := i + 1;
    }
    DrainEnd(out, m.heap, all);
  }

  /** Successive reads amount to one. */
  lemma Continue<V(!new)>(out: seq<Row<V>>, rows: seq<Row<V>>, heap: seq<FrameBuffer<V>>, heap': seq<FrameBuffer<V>>,
                          all: multiset<Row<V>>)
    requires Merged(out, heap, all) && Merged(rows, heap', Pool(heap, ALL_INPUTS))
    ensures Merged(out + rows, heap', all)
    ensures |Pool(heap', ALL_INPUTS)| == |Pool(heap, ALL_INPUTS)| - |rows|
  {
    hide Ready, Pool;
    var p, p' := Pool(heap, ALL_INPUTS), Pool(heap', ALL_INPUTS);
    assert multiset(out + rows) + p' == all by {
      assert multiset(out + rows) == multiset(out) + multiset(rows);
      assert multiset(out) + (multiset(rows) + p') == (multiset(out) + multiset(rows)) + p';
    }
    assert |p| == |rows| + |p'| by {
      assert |multiset(rows) + p'| == |multiset(rows)| + |p'|;
      assert |multiset(rows)| == |rows|;
    }
    forall r | r in rows || r in p'
      ensures r in p
    {
      assert r in multiset(rows) + p' by {
        if r in rows {
          assert r in multiset(rows);
        }
      }
    }
    assert forall j :: 0 <= j < |rows| ==> rows[j] in p;
  }

  lemma DrainEnd<V(!new)>(out: seq<Row<V>>, heap: seq<FrameBuffer<V>>, all: multiset<Row<V>>)
    requires Merged(out, heap, all) && Pool(heap, ALL_INPUTS) == multiset{}
    ensures Sorted(out) && multiset(out) == all
  {
  }

  /**
   External sort: reading the sorted reader to its end, in frames of any
   sizes, gives the rows of the input in order of their keys.
   */
  method ExternalSort<V(!new)>(spillTarget: nat, canary: nat, batch: nat, input: Reader<V>,
                               sort: seq<Row<V>> -> seq<Row<V>>,
                               encoded: seq<Row<V>> -> nat, list: seq<seq<Row<V>>> -> seq<Reader<V>>,
                                 frames: nat -> nat)
    returns (out: seq<Row<V>>)
    requires canary > 0 && batch > 0 && IsSort(sort) && ListsAll(list)
    requires (forall rows :: encoded(rows) >= |rows|) && forall i :: frames(i) > 0
    ensures Sorted(out) && multiset(out) == multiset(input.rest)
  {
    var m := SortReader(spillTarget, canary, batch, input, sort, encoded, list);
    out := Drain(m, frames);
  }
}
