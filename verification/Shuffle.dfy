/**
 Writing the output of a task by partition: the flush-on-full writer of a
 worker (exec/bigmachine.go), the in-memory buffer of the local executor
 (exec/local.go), and the reader that chains what was written.
 */
module Shuffle {
  import opened Rows
  import opened Reduction
  import opened Streams

  /** The partition of a row; the partitioner is asked only if there is more than one. */
  function Assigned<V>(part: Row<V> -> nat, nparts: nat, r: Row<V>): nat {
    if nparts > 1 then part(r) else 0
  }

  /** The rows of partition p, in order. */
  function PartOf<V>(part: Row<V> -> nat, nparts: nat, rows: seq<Row<V>>, p: nat): seq<Row<V>> {
    if rows == [] then []
    else
      var last := rows[|rows| - 1];
      PartOf(part, nparts, rows[..|rows| - 1], p) + if Assigned(part, nparts, last) == p then [last] else []
  }

  lemma PartOfAppend<V>(part: Row<V> -> nat, nparts: nat, rows: seq<Row<V>>, r: Row<V>, p: nat)
    ensures PartOf(part, nparts, rows + [r], p)
         == PartOf(part, nparts, rows, p) + if Assigned(part, nparts, r) == p then [r] else []
  {
    assert (rows + [r])[..|rows|] == rows;
  }

  lemma PartOfNone<V>(part: Row<V> -> nat, nparts: nat, p: nat)
    ensures PartOf(part, nparts, [], p) == []
  {
  }

  lemma PartOfRow<V>(part: Row<V> -> nat, nparts: nat, r: Row<V>, p: nat)
    ensures PartOf(part, nparts, [r], p) == if Assigned(part, nparts, r) == p then [r] else []
  {
    PartOfAppend(part, nparts, [], r, p);
    assert [] + [r] == [r];
  }

  lemma {:induction false} PartOfConcat<V>(part: Row<V> -> nat, nparts: nat, a: seq<Row<V>>, b: seq<Row<V>>, p: nat)
    ensures PartOf(part, nparts, a + b, p) == PartOf(part, nparts, a, p) + PartOf(part, nparts, b, p)
  {
    if b == [] {
      assert a + b == a;
    } else {
      var b', last := b[..|b| - 1], b[|b| - 1];
      assert a + b == (a + b') + [last];
      PartOfAppend(part, nparts, a + b', last, p);
      PartOfConcat(part, nparts, a, b', p);
    }
  }

  /** A single partition takes all rows. */
  lemma {:induction false} PartOfOne<V>(part: Row<V> -> nat, rows: seq<Row<V>>)
    ensures PartOf(part, 1, rows, 0) == rows
  {
    if rows != [] {
      PartOfOne(part, rows[..|rows| - 1]);
    }
  }

  ghost predicate InRange<V(!new)>(part: Row<V> -> nat, nparts: nat) {
    forall r :: Assigned(part, nparts, r) < nparts
  }

  /**
   Every row lands in exactly one partition, as often as it was written:
   together, the partitions hold the rows that were written.
   */
  lemma {:induction false} PartsConserve<V(!new)>(part: Row<V> -> nat, nparts: nat, rows: seq<Row<V>>)
    requires InRange(part, nparts)
    ensures multiset(rows) == Together(part, nparts, rows, nparts)
  {
    hide PartOf;
    if rows == [] {
      NoneTogether(part, nparts, nparts);
    } else {
      var n := |rows| - 1;
      PartsConserve(part, nparts, rows[..n]);
      TogetherAppend(part, nparts, rows[..n], rows[n], nparts);
      assert rows[..n] + [rows[n]] == rows;
    }
  }

  /** The rows in the first n partitions. */
  ghost function Together<V>(part: Row<V> -> nat, nparts: nat, rows: seq<Row<V>>, n: nat): multiset<Row<V>> {
    if n == 0 then multiset{} else Together(part, nparts, rows, n - 1) + multiset(PartOf(part, nparts, rows, n - 1))
  }

  lemma {:induction false} NoneTogether<V>(part: Row<V> -> nat, nparts: nat, n: nat)
    ensures Together(part, nparts, [], n) == multiset{}
  {
    if n > 0 {
      NoneTogether(part, nparts, n - 1);
    }
  }

  lemma {:induction false} TogetherAppend<V>(part: Row<V> -> nat, nparts: nat, rows: seq<Row<V>>, r: Row<V>, n: nat)
    ensures Together(part, nparts, rows + [r], n)
         == Together(part, nparts, rows, n) + if Assigned(part, nparts, r) < n then multiset{r} else multiset{}
  {
    hide PartOf, Assigned, Together;
    TogetherNext(part, nparts, rows, n);
    TogetherNext(part, nparts, rows + [r], n);
    if n > 0 {
      TogetherAppend(part, nparts, rows, r, n - 1);
      PartOfAppend(part, nparts, rows, r, n - 1);
      var p := Assigned(part, nparts, r);
      OneMore(Together(part, nparts, rows, n - 1), Together(part, nparts, rows + [r], n - 1),
              PartOf(part, nparts, rows, n - 1), PartOf(part, nparts, rows + [r], n - 1), r, p < n - 1, p == n - 1);
    }
  }

  lemma TogetherNext<V>(part: Row<V> -> nat, nparts: nat, rows: seq<Row<V>>, n: nat)
    ensures n == 0 ==> Together(part, nparts, rows, n) == multiset{}
    ensures n > 0 ==> Together(part, nparts, rows, n) ==
                      Together(part, nparts, rows, n - 1) + multiset(PartOf(part, nparts, rows, n - 1))
  {
    hide PartOf;
  }

  lemma OneMore<T>(before: multiset<T>, before': multiset<T>, last: seq<T>, last': seq<T>, x: T, below: bool,
                   here: bool)
    requires !(below && here) && before' == before + (if below then multiset{x} else multiset{})
    requires last' == last + if here then [x] else []
    ensures before' + multiset(last') ==
            (before + multiset(last)) + if below || here then multiset{x} else multiset{}
  {
    if here {
      assert multiset(last + [x]) == multiset(last) + multiset{x};
    } else {
      assert last' == last;
    }
  }

  /** The first n cells of a buffer. */
  ghost function Prefix<V>(bufs: array2<Row<V>>, p: nat, n: nat): (s: seq<Row<V>>)
    requires p < bufs.Length0 && n <= bufs.Length1
    reads bufs
    ensures |s| == n && forall j :: 0 <= j < n ==> s[j] == bufs[p, j]
  {
    seq(n, j requires 0 <= j < n reads bufs => bufs[p, j])
  }

  /** The partition buffers of a worker, each flushed to its file when full. */
  class FlushWriter<V(!new)> {
    const nparts: nat
    const psize: nat
    const partitionv: array2<Row<V>>
    const lens: array<nat>
    const count: array<nat>
    // The batches written to the file of each partition.
    var files: seq<seq<seq<Row<V>>>>

    ghost predicate Shaped()
      reads this
    {
      && psize > 0 && partitionv.Length0 == nparts && partitionv.Length1 == psize
      && lens.Length == nparts && count.Length == nparts && lens != count
      && |files| == nparts
    }

    /** All rows given to partition p. */
    ghost function Given(p: nat): seq<Row<V>>
      requires Shaped() && p < nparts && lens[p] <= psize
      reads this, partitionv, lens
    {
      Flatten(files[p]) + Prefix(partitionv, p, lens[p])
    }

    ghost predicate Holds(part: Row<V> -> nat, rows: seq<Row<V>>, p: nat)
      requires Shaped() && p < nparts
      reads this, partitionv, lens, count
    {
      && lens[p] < psize
      && Given(p) == PartOf(part, nparts, rows, p)
      && count[p] == |PartOf(part, nparts, rows, p)|
    }

    ghost predicate Valid(part: Row<V> -> nat, rows: seq<Row<V>>)
      reads this, partitionv, lens, count
    {
      Shaped() && forall p: nat :: p < nparts ==> Holds(part, rows, p)
    }

    constructor (nparts: nat, psize: nat, zero: Row<V>)
      requires psize > 0
      ensures forall part :: Valid(part, [])
      ensures this.nparts == nparts && fresh(partitionv) && fresh(lens) && fresh(count)
    {
      this.nparts, this.psize := nparts, psize;
      partitionv := new Row<V>[nparts, psize]((_, _) => zero);
      lens := new nat[nparts](_ => 0);
      count := new nat[nparts](_ => 0);
      files := seq(nparts, _ => []);
    }

    /** Copies a row into the buffer of its partition, which is flushed when it is full. */
    method Put(part: Row<V> -> nat, ghost rows: seq<Row<V>>, r: Row<V>)
      requires Valid(part, rows) && nparts > 1 && part(r) < nparts
      modifies this`files, partitionv, lens, count
      ensures Valid(part, rows + [r])
    {
      var p := part(r);
      assert Holds(part, rows, p);
      ghost var was, file := Given(p), files[p];
      partitionv[p, lens[p]] := r;
      lens[p], count[p] := lens[p] + 1, count[p] + 1;
      assert Given(p) == was + [r];
      if lens[p] == psize {
        var batch := seq(psize, j requires 0 <= j < psize reads partitionv => partitionv[p, j]);
        assert batch == Prefix(partitionv, p, psize);
        assert (file + [batch])[..|file|] == file;
        files := files[p := files[p] + [batch]];
        lens[p] := 0;
      }
      forall q: nat | q < nparts
        ensures Holds(part, rows + [r], q)
      {
        PartOfAppend(part, nparts, rows, r, q);
        assert old(Holds(part, rows, q));
        if q != p {
          assert Prefix(partitionv, q, lens[q]) == old(Prefix(partitionv, q, lens[q]));
        }
      }
    }

    /** Writes what is left in the buffers. */
    method Flush(part: Row<V> -> nat, ghost rows: seq<Row<V>>)
      requires Valid(part, rows)
      modifies this`files
      ensures Shaped() && forall p: nat :: p < nparts ==> Flatten(files[p]) == PartOf(part, nparts, rows, p)
      ensures forall p: nat :: p < nparts ==> count[p] == |PartOf(part, nparts, rows, p)|
    {
      hide PartOf;
      for p := 0 to nparts
        invariant Shaped()
        invariant forall q: nat :: p <= q < nparts ==> files[q] == old(files[q])
        invariant forall q: nat :: q < p ==> Flatten(files[q]) == PartOf(part, nparts, rows, q)
      {
        assert old(Holds(part, rows, p));
        ghost var file := files[p];
        var n := lens[p];
        if n > 0 {
          var batch := seq(n, j requires 0 <= j < n reads partitionv => partitionv[p, j]);
          assert batch == Prefix(partitionv, p, n);
          assert (file + [batch])[..|file|] == file;
          files := files[p := files[p] + [batch]];
        }
        assert Flatten(files[p]) == old(Given(p));
      }
      forall p: nat | p < nparts
        ensures count[p] == |PartOf(part, nparts, rows, p)|
      {
        assert old(Holds(part, rows, p));
      }
    }
  }

  /**
   A worker writes the output of a task: partition p gets exactly the rows
   assigned to it, in order, and their number is committed.
   */
  method WriteOutput<V(!new)>(out: Reader<V>, part: Row<V> -> nat, nparts: nat, chunk: nat, zero: Row<V>)
    returns (files: seq<seq<seq<Row<V>>>>, counts: seq<nat>)
    requires nparts > 0 && chunk >= 100 && InRange(part, nparts)
    ensures |files| == nparts && |counts| == nparts
    ensures forall p: nat :: p < nparts ==> Flatten(files[p]) == PartOf(part, nparts, out.rest, p)
    ensures forall p: nat :: p < nparts ==> counts[p] == |PartOf(part, nparts, out.rest, p)|
  {
    if nparts == 1 {
      var file, n := WriteAll(out, chunk);
      PartOfOne(part, out.rest);
      return [file], [n];
    }
    var w := new FlushWriter(nparts, chunk / 100, zero);
    var reader := out;
    ghost var done: seq<Row<V>> := [];
    while true
      invariant fresh(w) && fresh(w.partitionv) && fresh(w.lens) && fresh(w.count) && w.nparts == nparts
      invariant done + reader.rest == out.rest && w.Valid(part, done)
      decreases |reader.rest|, true
    {
      var n, eof := reader.Take(chunk), reader.Ends(chunk);
      var rows := reader.rest[..n];
      TakeMore(done, reader.rest, n, out.rest);
      assert done + rows[..0] == done;
      for i := 0 to n
        invariant w.Valid(part, done + rows[..i])
      {
        assert Assigned(part, nparts, rows[i]) < nparts;
        w.Put(part, done + rows[..i], rows[i]);
        assert (done + rows[..i]) + [rows[i]] == done + rows[..i + 1];
      }
      assert rows[..n] == rows;
      done := done + rows;
      reader := reader.After(chunk);
      if eof {
        break;
      }
    }
    assert done == out.rest;
    w.Flush(part, done);
    files, counts := w.files, w.count[..];
  }

  /** Writes everything to one file. */
  method WriteAll<V(!new)>(out: Reader<V>, chunk: nat) returns (file: seq<seq<Row<V>>>, count: nat)
    requires chunk > 0
    ensures Flatten(file) == out.rest && count == |out.rest|
  {
    file, count := [], 0;
    var reader := out;
    while true
      invariant Flatten(file) + reader.rest == out.rest && count == |Flatten(file)|
      decreases |reader.rest|
    {
      var n, eof := reader.Take(chunk), reader.Ends(chunk);
      TakeMore(Flatten(file), reader.rest, n, out.rest);
      assert (file + [reader.rest[..n]])[..|file|] == file;
      file, count := file + [reader.rest[..n]], count + n;
      reader := reader.After(chunk);
      if eof {
        break;
      }
    }
  }

  /** Appends a row to the frames of a partition; full frames are left alone. */
  function AppendRow<V>(frames: seq<seq<Row<V>>>, chunk: nat, r: Row<V>): (frames': seq<seq<Row<V>>>)
    ensures Flatten(frames') == Flatten(frames) + [r]
  {
    var m := |frames|;
    if m == 0 || |frames[m - 1]| >= chunk then
      assert (frames + [[r]])[..m] == frames;
      frames + [[r]]
    else
      var frames' := frames[m - 1 := frames[m - 1] + [r]];
      assert frames'[..m - 1] == frames[..m - 1];
      frames'
  }

  /** Appends each row to the last frame of its partition. */
  method BufferRows<V(!new)>(buf: array<seq<seq<Row<V>>>>, part: Row<V> -> nat, ghost done: seq<Row<V>>,
                             rows: seq<Row<V>>, chunk: nat)
    requires buf.Length > 1 && InRange(part, buf.Length) && Buffered(buf, part, done)
    modifies buf
    ensures Buffered(buf, part, done + rows)
  {
    hide Flatten, PartOf;
    assert done + rows[..0] == done;
    for i := 0 to |rows|
      invariant Buffered(buf, part, done + rows[..i])
    {
      var p := part(rows[i]);
      assert Assigned(part, buf.Length, rows[i]) == p;
      BufferStep(part, buf.Length, done + rows[..i], rows[i]);
      buf[p] := AppendRow(buf[p], chunk, rows[i]);
      assert (done + rows[..i]) + [rows[i]] == done + rows[..i + 1];
    }
    assert rows[..|rows|] == rows;
  }

  /** Without partitions whole frames are kept. */
  method BufferFrame<V(!new)>(buf: array<seq<seq<Row<V>>>>, part: Row<V> -> nat, ghost done: seq<Row<V>>,
                              rows: seq<Row<V>>)
    requires buf.Length == 1 && Buffered(buf, part, done)
    modifies buf
    ensures Buffered(buf, part, done + rows)
  {
    PartOfOne(part, done);
    PartOfOne(part, done + rows);
    assert (buf[0] + [rows])[..|buf[0]|] == buf[0];
    buf[0] := buf[0] + [rows];
  }

  lemma NothingBuffered<V(!new)>(part: Row<V> -> nat, nparts: nat)
    ensures Flatten<Row<V>>([]) == [] && forall p: nat :: PartOf(part, nparts, [], p) == []
  {
  }

  /** The local executor buffers the output of a task: the same rows in the same order as a worker writes. */
  method BufferOutput<V(!new)>(out: Reader<V>, part: Row<V> -> nat, nparts: nat, chunk: nat)
    returns (buf: array<seq<seq<Row<V>>>>)
    requires nparts > 0 && chunk > 0 && InRange(part, nparts)
    ensures fresh(buf) && buf.Length == nparts
    ensures forall p: nat :: p < nparts ==> Flatten(buf[p]) == PartOf(part, nparts, out.rest, p)
  {
    hide Flatten, PartOf;
    buf := new seq<seq<Row<V>>>[nparts](_ => []);
    NothingBuffered(part, nparts);
    var reader := out;
    ghost var done: seq<Row<V>> := [];
    while true
      invariant done + reader.rest == out.rest && Buffered(buf, part, done)
      decreases |reader.rest|, true
    {
      var n, eof := reader.Take(chunk), reader.Ends(chunk);
      var rows := reader.rest[..n];
      TakeMore(done, reader.rest, n, out.rest);
      if nparts > 1 {
        BufferRows(buf, part, done, rows, chunk);
      } else if n > 0 {
        BufferFrame(buf, part, done, rows);
      } else {
        assert done + rows == done;
      }
      done := done + rows;
      reader := reader.After(chunk);
      if eof {
        break;
      }
    }
    assert done == out.rest;
  }

  ghost predicate Buffered<V(!new)>(buf: array<seq<seq<Row<V>>>>, part: Row<V> -> nat, rows: seq<Row<V>>)
    reads buf
  {
    forall p: nat :: p < buf.Length ==> Flatten(buf[p]) == PartOf(part, buf.Length, rows, p)
  }

  lemma BufferStep<V(!new)>(part: Row<V> -> nat, nparts: nat, rows: seq<Row<V>>, r: Row<V>)
    ensures forall p: nat :: p < nparts ==>
              PartOf(part, nparts, rows + [r], p)
              == PartOf(part, nparts, rows, p) + if Assigned(part, nparts, r) == p then [r] else []
  {
    forall p: nat | p < nparts
      ensures PartOf(part, nparts, rows + [r], p)
           == PartOf(part, nparts, rows, p) + if Assigned(part, nparts, r) == p then [r] else []
    {
      PartOfAppend(part, nparts, rows, r, p);
    }
  }

  /** A reader that reports the end only when nothing is left. */
  ghost predicate Patient<V>(r: Reader<V>) {
    forall i :: !r.eager(i)
  }

  /** Buffered rows can be opened for reading, each time with its own policy. */
  ghost predicate ReadsBack<V(!new)>(open: (nat, seq<Row<V>>) -> Reader<V>) {
    forall j, rows :: open(j, rows).rest == rows && Patient(open(j, rows))
  }

  /** What one call returns: the rows of the first reader that does not end with it. Readers that end are dropped. */
  ghost function ReadFrom<V(!new)>(q: seq<Reader<V>>, max: nat): (seq<Row<V>>, seq<Reader<V>>) {
    if q == [] then ([], [])
    else if q[0].Ends(max) then ReadFrom(q[1..], max)
    else (q[0].rest[..q[0].Take(max)], q[0 := q[0].After(max)])
  }

  /** Every reader that ends on this call has no rows left. */
  ghost predicate EndsAlone<V(!new)>(q: seq<Reader<V>>, max: nat) {
    q == [] || !q[0].Ends(max) || (q[0].rest == [] && EndsAlone(q[1..], max))
  }

  /** What readers have left, one after the other. */
  ghost function Chain<V(!new)>(readers: seq<Reader<V>>): seq<Row<V>> {
    if readers == [] then [] else readers[0].rest + Chain(readers[1..])
  }

  /** A call never returns more than there was, and loses rows exactly if they come with the end of a reader. */
  lemma {:induction false} NothingDropped<V(!new)>(q: seq<Reader<V>>, max: nat)
    ensures var (rows, q') := ReadFrom(q, max);
            && |rows + Chain(q')| <= |Chain(q)|
            && (rows + Chain(q') == Chain(q) <==> EndsAlone(q, max))
  {
    if q != [] {
      var (rows, q') := ReadFrom(q, max);
      if q[0].Ends(max) {
        NothingDropped(q[1..], max);
        if q[0].rest != [] {
          assert |rows + Chain(q')| < |Chain(q)|;
        }
      } else {
        assert q'[1..] == q[1..];
        assert q[0].rest == rows + q'[0].rest;
      }
    }
  }

  /** A reader that reports the end along with its only row: the row is lost. */
  lemma RowIsDropped(r: Row<int>)
    ensures var reader := Reader([r], _ => 1, _ => true, 0);
            Chain([reader]) == [r] && ReadFrom([reader], 1) == ([], [])
  {
    var reader := Reader([r], _ => 1, _ => true, 0);
    assert [reader][1..] == [];
    assert Chain([reader][1..]) == [];
  }

  /** Patient readers end alone. */
  lemma {:induction false} PatientEndAlone<V(!new)>(q: seq<Reader<V>>, max: nat)
    requires forall i :: 0 <= i < |q| ==> Patient(q[i])
    ensures EndsAlone(q, max)
    ensures forall i :: 0 <= i < |ReadFrom(q, max).1| ==> Patient(ReadFrom(q, max).1[i])
    ensures max > 0 ==> (ReadFrom(q, max).0 == [] <==> Chain(q) == [])
  {
    if q != [] {
      PatientEndAlone(q[1..], max);
      var q' := ReadFrom(q, max).1;
      if q[0].Ends(max) {
        assert ReadFrom(q, max) == ReadFrom(q[1..], max);
      } else {
        assert q' == q[0 := q[0].After(max)];
        forall i | 0 <= i < |q'|
          ensures Patient(q'[i])
        {
          assert i > 0 ==> q'[i] == q[i];
        }
      }
    }
  }

  /** Readers read one after the other. */
  class MultiReader<V(!new)> {
    var q: seq<Reader<V>>

    ghost predicate Valid()
      reads this
    {
      forall i :: 0 <= i < |q| ==> Patient(q[i])
    }

    ghost function Rest(): seq<Row<V>>
      reads this
    {
      Chain(q)
    }

    constructor (readers: seq<Reader<V>>)
      ensures q == readers && Rest() == Chain(readers)
      ensures (forall i :: 0 <= i < |readers| ==> Patient(readers[i])) ==> Valid()
    {
      q := readers;
    }

    /**
     Reads from the first reader that does not end. For readers that report
     the end alone, nothing is lost or reordered, and the end is reported
     exactly when nothing is left.
     */
    method Read(max: nat) returns (rows: seq<Row<V>>, eof: bool)
      requires max > 0
      modifies this
      ensures (rows, q) == ReadFrom(old(q), max) && |rows| <= max
      ensures old(Valid()) ==> Valid() && rows + Rest() == old(Rest())
      ensures old(Valid()) ==> (eof <==> old(Rest()) == []) && (eof <==> rows == [])
    {
      NothingDropped(q, max);
      if Valid() {
        PatientEndAlone(q, max);
      }
      while q != []
        invariant ReadFrom(q, max) == ReadFrom(old(q), max)
        invariant old(Valid()) ==> Valid()
        decreases |q|
      {
        var r := q[0];
        var n := r.Take(max);
        if r.Ends(max) {
          q := q[1..];
        } else {
          q := q[0 := r.After(max)];
          return r.rest[..n], false;
        }
      }
      return [], true;
    }
  }

  /** Reads chained readers to their end. */
  method DrainChain<V(!new)>(q: seq<Reader<V>>, max: nat) returns (out: seq<Row<V>>)
    requires max > 0 && forall i :: 0 <= i < |q| ==> Patient(q[i])
    ensures out == Chain(q)
  {
    hide Chain, MultiReader.Valid, ReadFrom;
    var m := new MultiReader(q);
    out := [];
    var eof := false;
    while !eof
      invariant fresh(m) && m.Valid() && out + m.Rest() == Chain(q) && (eof ==> m.Rest() == [])
      decreases |m.Rest()|, !eof
    {
      var rows;
      rows, eof := m.Read(max);
      out := out + rows;
    }
  }
}
