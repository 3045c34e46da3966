/**
 Streams of rows: readers (sliceio/reader.go), the refillable buffers of the
 sorted readers (sortio/sort.go) and heaps of such buffers.
 */
module Streams {
  import opened Rows
  import opened Heaps
  import opened Monoids

  /**
   A reader is what is left to read, together with a policy that decides, for
   each call, how many rows to return at most and whether to report the end
   of the stream along with the last rows. Nothing is known of the policy
   except that a call does not come back empty-handed while rows remain.
   */
  datatype Reader<V> = Reader(rest: seq<Row<V>>, size: nat -> nat, eager: nat -> bool, calls: nat) {

    /** The number of rows returned by the next call, into a frame of max rows. */
    function Take(max: nat): (n: nat)
      ensures n <= |rest| && n <= max
      ensures rest != [] && max > 0 ==> n > 0
    {
      var n := if size(calls) == 0 then 1 else size(calls);
      var m := if n < max then n else max;
      if m < |rest| then m else |rest|
    }

    function After(max: nat): Reader<V> {
      this.(rest := rest[Take(max)..], calls := calls + 1)
    }

    /** Whether the call reports the end of the stream. */
    predicate Ends(max: nat) {
      Take(max) == |rest| && (rest == [] || eager(calls))
    }
  }

  /** Rows read so far and rows left, before and after taking n more. */
  lemma TakeMore<V>(done: seq<Row<V>>, rest: seq<Row<V>>, n: nat, all: seq<Row<V>>)
    requires n <= |rest| && done + rest == all
    ensures (done + rest[..n]) + rest[n..] == all
  {
    assert rest == rest[..n] + rest[n..];
  }

  /** What each of a set of readers has left. */
  ghost function Rests<V(!new)>(readers: seq<Reader<V>>): seq<seq<Row<V>>> {
    seq(|readers|, i requires 0 <= i < |readers| => readers[i].rest)
  }

  ghost predicate Sorted<V(!new)>(rows: seq<Row<V>>) {
    forall i, j :: 0 <= i < j < |rows| ==> rows[i].key <= rows[j].key
  }

  /** The outcome of a refill: a buffer, or the end of the stream. */
  datatype Refill<V> = Filled(buf: FrameBuffer<V>) | EOF

  /** Rows read ahead of a reader; `off` tells buffers apart. */
  datatype FrameBuffer<V> = FrameBuffer(off: nat, cap: nat, frame: seq<Row<V>>, index: nat, reader: Reader<V>) {

    /** There is a current row. */
    predicate Loaded() {
      index < |frame| && cap > 0
    }

    function Remaining(): seq<Row<V>> {
      (if index <= |frame| then frame[index..] else []) + reader.rest
    }

    function Current(): Row<V>
      requires Loaded()
    {
      frame[index]
    }

    /** Refills the buffer when it is used up. */
    function Fill(): (r: Refill<V>)
      requires index == |frame| && cap > 0
      ensures r.Filled? <==> reader.rest != []
      ensures r.Filled? ==> r.buf.Loaded() && r.buf.off == off && r.buf.Remaining() == reader.rest
    {
      var n := reader.Take(cap);
      if n == 0 then EOF
      else
        var b := this.(frame := reader.rest[..n], index := 0, reader := reader.After(cap));
        assert b.Remaining() == reader.rest;
        Filled(b)
    }

    /** Moves past the current row, refilling when the buffer is used up. */
    function Advance(): (r: Refill<V>)
      requires Loaded()
      ensures r.EOF? <==> Remaining()[1..] == []
      ensures r.Filled? ==> r.buf.Loaded() && r.buf.off == off && r.buf.Remaining() == Remaining()[1..]
    {
      var b := this.(index := index + 1);
      assert b.Remaining() == Remaining()[1..];
      if b.index == |frame| then b.Fill() else Filled(b)
    }
  }

  /** Buffers are ordered by the key of their current row. */
  function ByKey<V(!new)>(b: FrameBuffer<V>): Rank {
    if b.Loaded() then Rank(b.Current().key, 0) else Rank(0, 0)
  }

  ghost predicate Good<V(!new)>(b: FrameBuffer<V>) {
    b.Loaded() && Sorted(b.Remaining())
  }

  ghost predicate AllGood<V(!new)>(bufs: seq<FrameBuffer<V>>) {
    forall i :: 0 <= i < |bufs| ==> Good(bufs[i])
  }

  /** What one buffer still holds, if it belongs to a selected input. */
  ghost function Share<V(!new)>(b: FrameBuffer<V>, sel: nat -> bool): multiset<Row<V>> {
    if sel(b.off) then multiset(b.Remaining()) else multiset{}
  }

  /** All rows still to come from the selected inputs. */
  ghost function Pool<V(!new)>(bufs: seq<FrameBuffer<V>>, sel: nat -> bool): multiset<Row<V>> {
    Total(Plus, multiset{}, b => Share(b, sel), bufs)
  }

  lemma PoolConcat<V(!new)>(a: seq<FrameBuffer<V>>, b: seq<FrameBuffer<V>>, sel: nat -> bool)
    ensures Pool(a + b, sel) == Pool(a, sel) + Pool(b, sel)
  {
    PlusIsMonoid<Row<V>>();
    TotalConcat(Plus, multiset{}, b => Share(b, sel), a, b);
  }

  lemma PoolOne<V(!new)>(b: FrameBuffer<V>, sel: nat -> bool)
    ensures Pool([b], sel) == Share(b, sel)
  {
    PlusIsMonoid<Row<V>>();
    TotalOne(Plus, multiset{}, b => Share(b, sel), b);
  }

  lemma PoolAppend<V(!new)>(bufs: seq<FrameBuffer<V>>, b: FrameBuffer<V>, sel: nat -> bool)
    ensures Pool(bufs + [b], sel) == Pool(bufs, sel) + Share(b, sel)
  {
    TotalAppend(Plus, multiset{}, b => Share(b, sel), bufs, b);
  }

  /** Rearranging buffers does not change what they hold. */
  lemma PoolPermuted<V(!new)>(a: seq<FrameBuffer<V>>, b: seq<FrameBuffer<V>>, sel: nat -> bool)
    requires multiset(a) == multiset(b)
    ensures Pool(a, sel) == Pool(b, sel)
  {
    PlusIsMonoid<Row<V>>();
    TotalPermuted(Plus, multiset{}, b => Share(b, sel), a, b);
  }

  lemma {:induction false} PoolMember<V(!new)>(bufs: seq<FrameBuffer<V>>, sel: nat -> bool, r: Row<V>) returns (i: nat)
    requires r in Pool(bufs, sel)
    ensures i < |bufs| && r in bufs[i].Remaining()
  {
    var last := |bufs| - 1;
    if r in Share(bufs[last], sel) {
      i := last;
    } else {
      i := PoolMember(bufs[..last], sel, r);
    }
  }

  /** The key of the current row at the root. */
  ghost function RootKey<V(!new)>(bufs: seq<FrameBuffer<V>>): Key
    requires bufs != [] && bufs[0].Loaded()
  {
    bufs[0].Current().key
  }

  /** A heap of sorted, loaded buffers. */
  ghost predicate Ready<V(!new)>(bufs: seq<FrameBuffer<V>>) {
    AllGood(bufs) && IsHeap(bufs, ByKey)
  }

  /** The current row at the root of the heap is the least of all rows to come. */
  lemma RootRowIsLeast<V(!new)>(bufs: seq<FrameBuffer<V>>, sel: nat -> bool, r: Row<V>)
    requires Ready(bufs) && r in Pool(bufs, sel)
    ensures bufs != [] && RootKey(bufs) <= r.key
  {
    var i := PoolMember(bufs, sel, r);
    RootIsLeast(bufs, ByKey, i);
    var rows := bufs[i].Remaining();
    var j :| 0 <= j < |rows| && rows[j] == r;
    assert rows[0] == bufs[i].Current();
  }

  /** Good buffers stay good wherever they are moved. */
  lemma GoodStay<V(!new)>(bufs: seq<FrameBuffer<V>>, bufs': seq<FrameBuffer<V>>)
    requires AllGood(bufs) && multiset(bufs') <= multiset(bufs)
    ensures AllGood(bufs')
  {
    forall i | 0 <= i < |bufs'|
      ensures Good(bufs'[i])
    {
      assert bufs'[i] in multiset(bufs');
      assert bufs'[i] in multiset(bufs);
    }
  }

  /**
   Moves the heap past the row at its root: the root buffer advances and
   finds its new place, or leaves the heap when it is drained.
   */
  method AdvanceRoot<V(!new)>(bufs: seq<FrameBuffer<V>>) returns (bufs': seq<FrameBuffer<V>>)
    requires Ready(bufs) && bufs != []
    ensures Ready(bufs')
    ensures multiset(bufs') == multiset(Onward(bufs))
  {
    hide IsHeap, Heaps.OrderedBut, Heaps.Bridged, Heaps.InRange, Replay, Sorted, Onward, Good;
    var swaps;
    OnwardIs(bufs);
    match bufs[0].Advance() {
      case EOF =>
        ReplaceRoot(bufs, bufs[0]);
        var drained;
        drained, bufs', swaps := Remove(bufs, ByKey, 0);
        GoodStay(bufs, bufs');
      case Filled(b) =>
        ReplaceRoot(bufs, b);
        bufs', swaps := Fix(bufs[0 := b], ByKey, 0);
        GoodStay(bufs[0 := b], bufs');
    }
  }

  lemma OnwardIs<V(!new)>(bufs: seq<FrameBuffer<V>>)
    requires AllGood(bufs) && bufs != []
    ensures bufs[0].Loaded()
    ensures bufs[0].Advance().EOF? ==> multiset(Onward(bufs)) + multiset{bufs[0]} == multiset(bufs)
    ensures bufs[0].Advance().Filled? ==>
              var moved := bufs[0 := bufs[0].Advance().buf]; AllGood(moved) && multiset(Onward(bufs)) == multiset(moved)
  {
    hide Sorted, FrameBuffer.Advance, FrameBuffer.Loaded, FrameBuffer.Remaining;
    assert Good(bufs[0]);
    if bufs[0].Advance().EOF? {
      assert bufs[1..] + [] == bufs[1..];
      FirstApart(bufs);
    } else {
      Advanced(bufs[0]);
      FirstLast(bufs, bufs[0].Advance().buf);
    }
  }

  lemma FirstApart<T>(s: seq<T>)
    requires s != []
    ensures multiset(s[1..]) + multiset{s[0]} == multiset(s)
  {
    assert s == [s[0]] + s[1..];
  }

  lemma FirstLast<T>(s: seq<T>, x: T)
    requires s != []
    ensures multiset(s[1..] + [x]) == multiset(s[0 := x])
  {
    assert s[0 := x] == [x] + s[1..];
  }

  lemma ReplaceRoot<V(!new)>(bufs: seq<FrameBuffer<V>>, b: FrameBuffer<V>)
    requires Ready(bufs) && bufs != []
    ensures OrderedBut(bufs[0 := b], ByKey, 0, |bufs|, 0) && Bridged(bufs[0 := b], ByKey, 0, |bufs|, 0)
    ensures bufs[0 := bufs[0]] == bufs
  {
    ReplaceOne(bufs, ByKey, |bufs|, 0, b);
  }

  lemma Advanced<V(!new)>(b: FrameBuffer<V>)
    requires Good(b) && b.Advance().Filled?
    ensures Good(b.Advance().buf)
  {
  }

  /** A buffer after it has moved on, if it is not drained. */
  ghost function Next<V(!new)>(b: FrameBuffer<V>): seq<FrameBuffer<V>>
    requires b.Loaded()
  {
    match b.Advance() { case EOF => [] case Filled(b') => [b'] }
  }

  /** The buffers after the one at the root has moved on. */
  ghost function Onward<V(!new)>(bufs: seq<FrameBuffer<V>>): seq<FrameBuffer<V>>
    requires bufs != [] && bufs[0].Loaded()
  {
    bufs[1..] + Next(bufs[0])
  }

  lemma ShareAdvanced<V(!new)>(b: FrameBuffer<V>, sel: nat -> bool)
    requires b.Loaded()
    ensures Share(b, sel) == (if sel(b.off) then multiset{b.Current()} else multiset{}) + Pool(Next(b), sel)
  {
    assert b.Remaining() == [b.Current()] + b.Remaining()[1..];
    if b.Advance().Filled? {
      PoolOne(b.Advance().buf, sel);
    }
  }

  lemma Reassociate<T>(r: multiset<T>, c: multiset<T>, s: multiset<T>)
    ensures r + (c + s) == (r + s) + c
  {
  }

  /** Advancing the root takes exactly its current row out of the pool. */
  lemma PoolAdvanced<V(!new)>(bufs: seq<FrameBuffer<V>>, bufs': seq<FrameBuffer<V>>, sel: nat -> bool)
    requires bufs != [] && bufs[0].Loaded() && multiset(bufs') == multiset(Onward(bufs))
    ensures Pool(bufs, sel) == Pool(bufs', sel) + if sel(bufs[0].off) then multiset{bufs[0].Current()} else multiset{}
  {
    hide Pool, Share, Next;
    assert bufs == [bufs[0]] + bufs[1..];
    PoolConcat([bufs[0]], bufs[1..], sel);
    PoolOne(bufs[0], sel);
    ShareAdvanced(bufs[0], sel);
    PoolPermuted(bufs', Onward(bufs), sel);
    PoolConcat(bufs[1..], Next(bufs[0]), sel);
    Reassociate(Pool(bufs[1..], sel), if sel(bufs[0].off) then multiset{bufs[0].Current()} else multiset{},
                Pool(Next(bufs[0]), sel));
  }

  /** Rows are left as long as the heap is not empty. */
  lemma PoolNotEmpty<V(!new)>(bufs: seq<FrameBuffer<V>>, sel: nat -> bool)
    requires AllGood(bufs) && bufs != [] && sel(bufs[|bufs| - 1].off)
    ensures bufs[|bufs| - 1].Current() in Pool(bufs, sel)
  {
    var b := bufs[|bufs| - 1];
    assert b.Remaining()[0] == b.Current();
  }

  lemma GoodAppend<V(!new)>(bufs: seq<FrameBuffer<V>>, b: FrameBuffer<V>)
    requires AllGood(bufs) && Good(b)
    ensures AllGood(bufs + [b])
  {
  }
}
