/**
 Cogroup (cogroup.go): the inputs are sorted and merged, and the values of
 each key are gathered by input.
 */
module Cogroup {
  import opened Rows
  import opened Heaps
  import opened Monoids
  import opened Streams
  import opened MergeReader

  const BUFFER_SIZE: nat := 128

  /** A row of the result: a key and, for each input, the values it has for the key. */
  datatype Grouped<V> = Grouped(key: Key, groups: seq<seq<V>>)

  lemma {:induction false} ValuesConcat<V>(a: seq<Row<V>>, b: seq<Row<V>>, k: Key)
    ensures ValuesOf(a + b, k) == ValuesOf(a, k) + ValuesOf(b, k)
  {
    if b == [] {
      assert a + b == a;
    } else {
      var n := |b| - 1;
      assert (a + b)[..|a| + n] == a + b[..n];
      ValuesConcat(a, b[..n], k);
    }
  }

  lemma {:induction false} ValuesPresent<V>(rows: seq<Row<V>>, k: Key)
    ensures ValuesOf(rows, k) != [] <==> k in KeysOf(rows)
  {
    if rows != [] {
      var n := |rows| - 1;
      ValuesPresent(rows[..n], k);
      assert rows == rows[..n] + [rows[n]];
      KeysOfAppend(rows[..n], rows[n]);
    }
  }

  /** The values of a key, as the total over the rows. */
  lemma {:induction false} ValuesAreTotal<V(!new)>(rows: seq<Row<V>>, k: Key)
    ensures multiset(ValuesOf(rows, k)) == Total(Plus, multiset{}, ValueAt(k), rows)
  {
    if rows != [] {
      ValuesAreTotal(rows[..|rows| - 1], k);
    }
  }

  ghost function ValueAt<V(!new)>(k: Key): Row<V> -> multiset<V> {
    (r: Row<V>) => if r.key == k then multiset{r.val} else multiset{}
  }

  /** Sorting does not change the values of a key. */
  lemma ValuesPermuted<V(!new)>(a: seq<Row<V>>, b: seq<Row<V>>, k: Key)
    requires multiset(a) == multiset(b)
    ensures multiset(ValuesOf(a, k)) == multiset(ValuesOf(b, k))
  {
    ValuesAreTotal(a, k);
    ValuesAreTotal(b, k);
    PlusIsMonoid<V>();
    TotalPermuted(Plus, multiset{}, ValueAt(k), a, b);
  }

  // What the buffers hold for one input and one key.

  ghost function BagIn<V(!new)>(i: nat, k: Key): FrameBuffer<V> -> multiset<V> {
    (b: FrameBuffer<V>) => if b.off / BUFFER_SIZE == i then multiset(ValuesOf(b.Remaining(), k)) else multiset{}
  }

  ghost function Bag<V(!new)>(heap: seq<FrameBuffer<V>>, i: nat, k: Key): multiset<V> {
    Total(Plus, multiset{}, BagIn(i, k), heap)
  }

  lemma BagAppend<V(!new)>(heap: seq<FrameBuffer<V>>, b: FrameBuffer<V>, i: nat, k: Key)
    ensures Bag(heap + [b], i, k) == Bag(heap, i, k) + BagIn(i, k)(b)
  {
    TotalAppend(Plus, multiset{}, BagIn(i, k), heap, b);
  }

  lemma BagPermuted<V(!new)>(a: seq<FrameBuffer<V>>, b: seq<FrameBuffer<V>>, i: nat, k: Key)
    requires multiset(a) == multiset(b)
    ensures Bag(a, i, k) == Bag(b, i, k)
  {
    PlusIsMonoid<V>();
    TotalPermuted(Plus, multiset{}, BagIn(i, k), a, b);
  }

  lemma BagConcat<V(!new)>(a: seq<FrameBuffer<V>>, b: seq<FrameBuffer<V>>, i: nat, k: Key)
    ensures Bag(a + b, i, k) == Bag(a, i, k) + Bag(b, i, k)
  {
    PlusIsMonoid<V>();
    TotalConcat(Plus, multiset{}, BagIn(i, k), a, b);
  }

  lemma BagOne<V(!new)>(b: FrameBuffer<V>, i: nat, k: Key)
    ensures Bag([b], i, k) == BagIn(i, k)(b)
  {
    PlusIsMonoid<V>();
    TotalOne(Plus, multiset{}, BagIn(i, k), b);
  }

  /** The value the root contributes. */
  ghost function Taken<V(!new)>(b: FrameBuffer<V>, i: nat, k: Key): multiset<V>
    requires b.Loaded()
  {
    if b.off / BUFFER_SIZE == i && b.Current().key == k then multiset{b.Current().val} else multiset{}
  }

  lemma BagNext<V(!new)>(b: FrameBuffer<V>, i: nat, k: Key)
    requires b.Loaded()
    ensures Bag([b], i, k) == Taken(b, i, k) + Bag(Next(b), i, k)
  {
    hide Bag;
    BagOne(b, i, k);
    assert b.Remaining() == [b.Current()] + b.Remaining()[1..];
    ValuesConcat([b.Current()], b.Remaining()[1..], k);
    assert [b.Current()][..0] == [];
    if b.Advance().Filled? {
      BagOne(b.Advance().buf, i, k);
    } else {
      NoBag<V>(i, k);
    }
  }

  lemma NoBag<V(!new)>(i: nat, k: Key)
    ensures Bag<V>([], i, k) == multiset{}
  {
  }

  /** Advancing the root takes exactly its value out. */
  lemma BagAdvanced<V(!new)>(heap: seq<FrameBuffer<V>>, heap': seq<FrameBuffer<V>>, i: nat, k: Key)
    requires heap != [] && heap[0].Loaded() && multiset(heap') == multiset(Onward(heap))
    ensures Bag(heap, i, k) == Taken(heap[0], i, k) + Bag(heap', i, k)
  {
    hide Bag, Next, Taken;
    assert heap == [heap[0]] + heap[1..];
    BagConcat([heap[0]], heap[1..], i, k);
    BagNext(heap[0], i, k);
    BagPermuted(heap', Onward(heap), i, k);
    BagConcat(heap[1..], Next(heap[0]), i, k);
  }

  /** Buffers hold nothing for keys below the root's. */
  lemma {:induction false} BagBelow<V(!new)>(heap: seq<FrameBuffer<V>>, some: seq<FrameBuffer<V>>, i: nat, k: Key)
    requires Ready(heap) && some <= heap && (heap != [] ==> k < RootKey(heap))
    ensures Bag(some, i, k) == multiset{}
  {
    if some != [] {
      var n := |some| - 1;
      BagBelow(heap, some[..n], i, k);
      RootIsLeast(heap, ByKey, n);
      var rows := heap[n].Remaining();
      assert rows[0] == heap[n].Current();
      ValuesPresent(rows, k);
    }
  }

  // The state of a cogroup.

  function Vals<V>(rows: seq<Row<V>>): seq<V> {
    seq(|rows|, j requires 0 <= j < |rows| => rows[j].val)
  }

  ghost function OutKeys<V(!new)>(out: seq<Grouped<V>>): set<Key> {
    set j | 0 <= j < |out| :: out[j].key
  }

  lemma OutKeysAppend<V(!new)>(out: seq<Grouped<V>>, g: Grouped<V>)
    ensures OutKeys(out + [g]) == OutKeys(out) + {g.key}
  {
    var all := out + [g];
    forall k | k in OutKeys(out) + {g.key}
      ensures k in OutKeys(all)
    {
      if k == g.key {
        assert all[|out|].key == k;
      } else {
        var j :| 0 <= j < |out| && out[j].key == k;
        assert all[j].key == k;
      }
    }
  }

  /** A result row holds exactly the values of its key, input by input, and some input has the key. */
  ghost predicate Faithful<V(!new)>(g: Grouped<V>, inputs: seq<seq<Row<V>>>) {
    && |g.groups| == |inputs|
    && (forall i :: 0 <= i < |inputs| ==> multiset(g.groups[i]) == multiset(ValuesOf(inputs[i], g.key)))
    && (exists i :: 0 <= i < |inputs| && g.key in KeysOf(inputs[i]))
  }

  ghost predicate InBounds<V(!new)>(heap: seq<FrameBuffer<V>>, n: nat) {
    forall j :: 0 <= j < |heap| ==> heap[j].off / BUFFER_SIZE < n
  }

  /** What is left for an input and a key: everything, or nothing once the key has been put out. */
  ghost predicate Left<V(!new)>(keys: set<Key>, heap: seq<FrameBuffer<V>>, inputs: seq<seq<Row<V>>>, i: nat, k: Key)
    requires i < |inputs|
  {
    Bag(heap, i, k) == if k in keys then multiset{} else multiset(ValuesOf(inputs[i], k))
  }

  ghost predicate Increasing<V(!new)>(out: seq<Grouped<V>>) {
    forall a, b :: 0 <= a < b < |out| ==> out[a].key < out[b].key
  }

  /** Between rows: what was put out, and what the heap still holds. */
  ghost predicate Grouping<V(!new)>(out: seq<Grouped<V>>, heap: seq<FrameBuffer<V>>, inputs: seq<seq<Row<V>>>) {
    && Ready(heap) && InBounds(heap, |inputs|) && Increasing(out)
    && (forall j :: 0 <= j < |out| ==> Faithful(out[j], inputs))
    && (forall i: nat, k :: i < |inputs| ==> Left(OutKeys(out), heap, inputs, i, k))
    && (out != [] && heap != [] ==> out[|out| - 1].key < RootKey(heap))
  }

  /** For the key being gathered, what was gathered counts too. */
  ghost predicate Account<V(!new)>(keys: set<Key>, k: Key, row: seq<seq<Row<V>>>, heap: seq<FrameBuffer<V>>,
                                   inputs: seq<seq<Row<V>>>, i: nat, k': Key)
    requires i < |inputs| == |row|
  {
    if k' == k then multiset(Vals(row[i])) + Bag(heap, i, k) == multiset(ValuesOf(inputs[i], k))
    else Left(keys, heap, inputs, i, k')
  }

  /** While the rows of key k are gathered. */
  ghost predicate Gathering<V(!new)>(keys: set<Key>, k: Key, row: seq<seq<Row<V>>>, heap: seq<FrameBuffer<V>>,
                                     inputs: seq<seq<Row<V>>>) {
    && Ready(heap) && InBounds(heap, |inputs|) && |row| == |inputs|
    && (forall i: nat, k' :: i < |inputs| ==> Account(keys, k, row, heap, inputs, i, k'))
    && (forall i, j :: 0 <= i < |row| && 0 <= j < |row[i]| ==> row[i][j].key == k)
    && (heap != [] ==> k <= RootKey(heap))
  }

  lemma BoundsStay<V(!new)>(heap: seq<FrameBuffer<V>>, heap': seq<FrameBuffer<V>>, n: nat)
    requires InBounds(heap, n) && multiset(heap') == multiset(heap)
    ensures InBounds(heap', n)
  {
    forall j | 0 <= j < |heap'|
      ensures heap'[j].off / BUFFER_SIZE < n
    {
      assert heap'[j] in multiset(heap');
      assert heap'[j] in multiset(heap);
    }
  }

  lemma OnwardInBounds<V(!new)>(heap: seq<FrameBuffer<V>>, n: nat)
    requires heap != [] && heap[0].Loaded() && InBounds(heap, n)
    ensures InBounds(Onward(heap), n)
  {
  }

  lemma NextKey<V(!new)>(b: FrameBuffer<V>)
    requires Good(b) && b.Advance().Filled?
    ensures b.Current().key <= b.Advance().buf.Current().key
  {
    var rows := b.Remaining();
    assert b.Advance().buf.Remaining()[0] == rows[1] && rows[0] == b.Current();
  }

  /** The least key never gets smaller. */
  lemma RootGrows<V(!new)>(heap: seq<FrameBuffer<V>>, heap': seq<FrameBuffer<V>>)
    requires Ready(heap) && heap != [] && Ready(heap') && heap' != [] && multiset(heap') == multiset(Onward(heap))
    ensures RootKey(heap) <= RootKey(heap')
  {
    hide IsHeap, Sorted;
    var b := heap'[0];
    assert b in multiset(heap');
    assert b in multiset(Onward(heap));
    var j :| 0 <= j < |Onward(heap)| && Onward(heap)[j] == b;
    if j < |heap| - 1 {
      assert b == heap[j + 1];
      RootIsLeast(heap, ByKey, j + 1);
    } else {
      NextKey(heap[0]);
    }
  }

  function NoRows<V>(n: nat): (row: seq<seq<Row<V>>>)
    ensures |row| == n && forall i :: 0 <= i < n ==> row[i] == []
  {
    seq(n, _ => [])
  }

  lemma StartGathering<V(!new)>(out: seq<Grouped<V>>, heap: seq<FrameBuffer<V>>, inputs: seq<seq<Row<V>>>)
    requires Grouping(out, heap, inputs) && heap != []
    ensures RootKey(heap) !in OutKeys(out)
    ensures Gathering(OutKeys(out), RootKey(heap), NoRows(|inputs|), heap, inputs)
  {
    hide Bag, ValuesOf, IsHeap;
    var k := RootKey(heap);
    if out != [] {
      assert forall j :: 0 <= j < |out| ==> out[j].key <= out[|out| - 1].key;
    }
    forall i: nat, k' | i < |inputs|
      ensures Account(OutKeys(out), k, NoRows(|inputs|), heap, inputs, i, k')
    {
      assert Left(OutKeys(out), heap, inputs, i, k');
    }
  }

  lemma ValsAppend<V>(rows: seq<Row<V>>, r: Row<V>)
    ensures Vals(rows + [r]) == Vals(rows) + [r.val]
  {
  }

  /** One row of the current key is gathered. */
  lemma GatherAccount<V(!new)>(keys: set<Key>, row: seq<seq<Row<V>>>, heap: seq<FrameBuffer<V>>,
                               heap': seq<FrameBuffer<V>>,
                               inputs: seq<seq<Row<V>>>, idx: nat, i: nat, k': Key)
    requires heap != [] && heap[0].Loaded() && multiset(heap') == multiset(Onward(heap))
    requires idx == heap[0].off / BUFFER_SIZE < |inputs| == |row| && i < |inputs|
    requires Account(keys, RootKey(heap), row, heap, inputs, i, k')
    ensures Account(keys, RootKey(heap), row[idx := row[idx] + [heap[0].Current()]], heap', inputs, i, k')
  {
    hide Bag, ValuesOf, Vals, Onward;
    BagAdvanced(heap, heap', i, k');
    ValsAppend(row[idx], heap[0].Current());
    if i == idx && k' == RootKey(heap) {
      var v := heap[0].Current().val;
      assert multiset(Vals(row[i]) + [v]) == multiset(Vals(row[i])) + multiset{v};
    }
  }

  lemma GatherStep<V(!new)>(keys: set<Key>, row: seq<seq<Row<V>>>, heap: seq<FrameBuffer<V>>,
                            heap': seq<FrameBuffer<V>>,
                            inputs: seq<seq<Row<V>>>, idx: nat)
    requires Ready(heap) && heap != [] && Gathering(keys, RootKey(heap), row, heap, inputs)
    requires Ready(heap') && multiset(heap') == multiset(Onward(heap)) && idx == heap[0].off / BUFFER_SIZE
    ensures idx < |row| && Gathering(keys, RootKey(heap), row[idx := row[idx] + [heap[0].Current()]], heap', inputs)
  {
    hide Bag, Account, Onward, IsHeap;
    OnwardInBounds(heap, |inputs|);
    BoundsStay(Onward(heap), heap', |inputs|);
    if heap' != [] {
      RootGrows(heap, heap');
    }
    var k, row' := RootKey(heap), row[idx := row[idx] + [heap[0].Current()]];
    forall i: nat, k' | i < |inputs|
      ensures Account(keys, k, row', heap', inputs, i, k')
    {
      GatherAccount(keys, row, heap, heap', inputs, idx, i, k');
    }
  }

  /** All rows of the key have been gathered. */
  lemma GatherEnd<V(!new)>(out: seq<Grouped<V>>, k: Key, row: seq<seq<Row<V>>>, heap: seq<FrameBuffer<V>>,
                           inputs: seq<seq<Row<V>>>, i: nat, k': Key)
    requires Gathering(OutKeys(out), k, row, heap, inputs) && i < |inputs| && (heap != [] ==> k < RootKey(heap))
    ensures multiset(Vals(row[i])) == multiset(ValuesOf(inputs[i], k))
    ensures Left(OutKeys(out) + {k}, heap, inputs, i, k')
  {
    hide Bag, ValuesOf, Vals, OutKeys;
    assert Account(OutKeys(out), k, row, heap, inputs, i, k');
    assert Account(OutKeys(out), k, row, heap, inputs, i, k);
    BagBelow(heap, heap, i, k);
  }

  lemma PutOut<V(!new)>(out: seq<Grouped<V>>, k: Key, row: seq<seq<Row<V>>>, heap: seq<FrameBuffer<V>>,
                        inputs: seq<seq<Row<V>>>,
                        g: Grouped<V>, last: nat)
    requires Gathering(OutKeys(out), k, row, heap, inputs) && (heap != [] ==> k < RootKey(heap))
    requires Increasing(out) && (forall j :: 0 <= j < |out| ==> Faithful(out[j], inputs))
    requires (out != [] ==> out[|out| - 1].key < k) && last < |row| && row[last] != []
    requires g.key == k && |g.groups| == |row| && forall i :: 0 <= i < |row| ==> g.groups[i] == Vals(row[i])
    ensures Grouping(out + [g], heap, inputs)
  {
    hide Bag, ValuesOf, Vals, OutKeys, Left, Account, IsHeap;
    OutKeysAppend(out, g);
    forall i: nat, k' | i < |inputs|
      ensures Left(OutKeys(out + [g]), heap, inputs, i, k')
    {
      GatherEnd(out, k, row, heap, inputs, i, k');
    }
    forall i | 0 <= i < |inputs|
      ensures multiset(g.groups[i]) == multiset(ValuesOf(inputs[i], k))
    {
      GatherEnd(out, k, row, heap, inputs, i, k);
    }
    HasKey(row[last], inputs[last], k);
  }

  lemma HasKey<V(!new)>(rows: seq<Row<V>>, input: seq<Row<V>>, k: Key)
    requires rows != [] && multiset(Vals(rows)) == multiset(ValuesOf(input, k))
    ensures k in KeysOf(input)
  {
    assert Vals(rows)[0] in multiset(Vals(rows));
    ValuesPresent(input, k);
  }

  lemma Gathered<V(!new)>(keys: set<Key>, k: Key, row: seq<seq<Row<V>>>, heap: seq<FrameBuffer<V>>,
                          inputs: seq<seq<Row<V>>>)
    requires Gathering(keys, k, row, heap, inputs)
    ensures |row| == |inputs| && forall i :: 0 <= i < |row| && row[i] != [] ==> row[i][0].key == k
    ensures heap != [] ==> heap[0].Loaded() && k <= RootKey(heap)
  {
  }

  // Starting: one sorted buffer for each input.

  /** The buffers of the first n inputs hold all their values. */
  ghost predicate Opened<V(!new)>(bufs: seq<FrameBuffer<V>>, inputs: seq<seq<Row<V>>>, n: nat) {
    && AllGood(bufs) && InBounds(bufs, n) && n <= |inputs|
    && (forall i: nat, k :: i < n ==> Left({}, bufs, inputs, i, k))
    && (forall i: nat, k :: i >= n ==> Bag(bufs, i, k) == multiset{})
  }

  lemma NothingOpened<V(!new)>(inputs: seq<seq<Row<V>>>)
    ensures Opened([], inputs, 0)
  {
  }

  /** The buffer of input n, once filled, adds the values of that input. */
  lemma OpenBag<V(!new)>(bufs: seq<FrameBuffer<V>>, input: seq<Row<V>>, n: nat, sorted: seq<Row<V>>, b: FrameBuffer<V>,
                         i: nat, k: Key)
    requires multiset(sorted) == multiset(input) && b.off == n * BUFFER_SIZE && b.Remaining() == sorted
    ensures Bag(bufs + [b], i, k) == Bag(bufs, i, k) + if i == n then multiset(ValuesOf(input, k)) else multiset{}
  {
    hide Bag, ValuesOf;
    ValuesPermuted(sorted, input, k);
    BagAppend(bufs, b, i, k);
  }

  lemma OpenStep<V(!new)>(bufs: seq<FrameBuffer<V>>, inputs: seq<seq<Row<V>>>, n: nat, sorted: seq<Row<V>>,
                          b: FrameBuffer<V>)
    requires n < |inputs| && Opened(bufs, inputs, n) && Sorted(sorted) && multiset(sorted) == multiset(inputs[n])
    requires b.off == n * BUFFER_SIZE && b.Loaded() && b.Remaining() == sorted
    ensures Opened(bufs + [b], inputs, n + 1)
  {
    hide Bag, AllGood, Sorted, ValuesOf;
    GoodAppend(bufs, b);
    var bufs' := bufs + [b];
    forall i: nat, k
      ensures Bag(bufs', i, k) == Bag(bufs, i, k) + if i == n then multiset(ValuesOf(inputs[n], k)) else multiset{}
    {
      OpenBag(bufs, inputs[n], n, sorted, b, i, k);
    }
    forall i: nat, k | i < n + 1
      ensures Left({}, bufs', inputs, i, k)
    {
      if i < n {
        assert Left({}, bufs, inputs, i, k);
      }
    }
  }

  /** An empty input has no values. */
  lemma SkipStep<V(!new)>(bufs: seq<FrameBuffer<V>>, inputs: seq<seq<Row<V>>>, n: nat)
    requires n < |inputs| && Opened(bufs, inputs, n) && multiset(inputs[n]) == multiset{}
    ensures Opened(bufs, inputs, n + 1)
  {
    hide Bag, AllGood;
    assert |inputs[n]| == |multiset(inputs[n])|;
    assert inputs[n] == [];
    forall i: nat, k | i < n + 1
      ensures Left({}, bufs, inputs, i, k)
    {
      if i < n {
        assert Left({}, bufs, inputs, i, k);
      }
    }
  }

  lemma OpenedHeap<V(!new)>(bufs: seq<FrameBuffer<V>>, heap: seq<FrameBuffer<V>>, inputs: seq<seq<Row<V>>>)
    requires Opened(bufs, inputs, |inputs|) && IsHeap(heap, ByKey) && multiset(heap) == multiset(bufs)
    ensures Grouping([], heap, inputs)
  {
    hide Bag;
    assert OutKeys<V>([]) == {};
    GoodStay(bufs, heap);
    BoundsStay(bufs, heap, |inputs|);
    forall i: nat, k | i < |inputs|
      ensures Left({}, heap, inputs, i, k)
    {
      BagPermuted(heap, bufs, i, k);
      assert Left({}, bufs, inputs, i, k);
    }
  }

  /** The heap is re-established before each read. */
  lemma Reheaped<V(!new)>(out: seq<Grouped<V>>, heap: seq<FrameBuffer<V>>, heap': seq<FrameBuffer<V>>,
                          inputs: seq<seq<Row<V>>>)
    requires Grouping(out, heap, inputs) && IsHeap(heap', ByKey) && multiset(heap') == multiset(heap)
    ensures Grouping(out, heap', inputs)
  {
    hide Bag, IsHeap;
    GoodStay(heap, heap');
    BoundsStay(heap, heap', |inputs|);
    forall i: nat, k | i < |inputs|
      ensures Left(OutKeys(out), heap', inputs, i, k)
    {
      BagPermuted(heap', heap, i, k);
      assert Left(OutKeys(out), heap, inputs, i, k);
    }
    if heap' != [] {
      assert heap'[0] in multiset(heap');
      assert heap'[0] in multiset(heap);
      var j :| 0 <= j < |heap| && heap[j] == heap'[0];
      RootIsLeast(heap, ByKey, j);
    }
  }

  /** The surroundings of the sorts. */
  datatype Sorting<!V(!new)> = Sorting(
    spillTarget: nat, canary: nat, batch: nat,
    sort: seq<Row<V>> -> seq<Row<V>>,
    encoded: seq<Row<V>> -> nat,
    list: seq<seq<Row<V>>> -> seq<Reader<V>>,
    frames: nat -> nat)
  {
    ghost predicate Proper() {
      && canary > 0 && batch > 0 && IsSort(sort) && ListsAll(list)
      && (forall rows :: encoded(rows) >= |rows|) && (forall i :: frames(i) > 0)
    }
  }

  /** A merge fills each frame and reports the end alone. */
  function MergedStream<V>(rows: seq<Row<V>>): Reader<V> {
    Reader(rows, _ => |rows| + 1, _ => false, 0)
  }

  class CogroupReader<V(!new)> {
    const sorting: Sorting<V>
    const readers: seq<Reader<V>>
    var started: bool
    var done: bool
    var heap: seq<FrameBuffer<V>>
    // All rows put out so far.
    ghost var emitted: seq<Grouped<V>>

    ghost predicate Valid()
      reads this
    {
      && sorting.Proper()
      && (if started then Grouping(emitted, heap, Rests(readers)) else emitted == [])
      && (done ==> started && heap == [])
    }

    constructor (readers: seq<Reader<V>>, sorting: Sorting<V>)
      requires sorting.Proper()
      ensures Valid() && emitted == [] && !done && this.readers == readers
    {
      this.readers, this.sorting := readers, sorting;
      started, done, heap, emitted := false, false, [], [];
    }

    /** Sorts one input and fills its buffer. */
    method OpenInput(i: nat) returns (buf: Refill<V>, ghost sorted: seq<Row<V>>)
      requires sorting.Proper() && i < |readers|
      ensures Sorted(sorted) && multiset(sorted) == multiset(readers[i].rest)
      ensures match buf
              case EOF => sorted == []
              case Filled(b) => b.Loaded() && b.off == i * BUFFER_SIZE && b.Remaining() == sorted
    {
      hide Sorted;
      var rows := ExternalSort(sorting.spillTarget, sorting.canary, sorting.batch, readers[i], sorting.sort,
                               sorting.encoded, sorting.list, sorting.frames);
      sorted := rows;
      buf := FrameBuffer(i * BUFFER_SIZE, BUFFER_SIZE, [], 0, MergedStream(rows)).Fill();
    }

    /** Sorts the inputs one by one and fills a buffer from each; inputs without data are skipped. */
    method Start()
      requires Valid() && !started
      modifies this
      ensures Valid() && started && !done && emitted == []
    {
      hide Sorted, Opened, Grouping, IsHeap, Bag, sorting.Proper;
      var bufs: seq<FrameBuffer<V>> := [];
      ghost var inputs := Rests(readers);
      NothingOpened(inputs);
      for i := 0 to |readers|
        invariant Opened(bufs, inputs, i) && !started && emitted == [] && !done
      {
        var buf, sorted := OpenInput(i);
        match buf {
          case EOF =>
            SkipStep(bufs, inputs, i);
          case Filled(b) =>
            OpenStep(bufs, inputs, i, sorted, b);
            bufs := bufs + [b];
        }
      }
      heap := Init(bufs, ByKey);
      OpenedHeap(bufs, heap, inputs);
      started := true;
    }

    /** Gathers all rows with the least key, by input. */
    method Gather() returns (key: Key, row: seq<seq<Row<V>>>, ghost last: nat)
      requires Grouping(emitted, heap, Rests(readers)) && heap != []
      modifies this`heap
      ensures Gathering(OutKeys(emitted), key, row, heap, Rests(readers)) && (heap != [] ==> key < RootKey(heap))
      ensures key == old(RootKey(heap)) && last < |row| && row[last] != []
      ensures |Pool(heap, ALL_INPUTS)| < old(|Pool(heap, ALL_INPUTS)|)
    {
      hide OutKeys, Gathering, Ready, Onward, Pool;
      ghost var inputs, keys := Rests(readers), OutKeys(emitted);
      StartGathering(emitted, heap, inputs);
      ReadyRoot(heap);
      row, key := NoRows(|readers|), heap[0].Current().key;
      var at := -1;
      while at < 0 || (heap != [] && heap[0].Current().key <= row[at][0].key)
        invariant Ready(heap) && Gathering(keys, key, row, heap, inputs) && |row| == |readers|
        invariant if at < 0 then heap == old(heap) && key == RootKey(heap)
                  else at < |row| && row[at] != [] && row[at][0].key == key
        invariant heap != [] ==> heap[0].Loaded() && key <= RootKey(heap)
        invariant at >= 0 ==> |Pool(heap, ALL_INPUTS)| < old(|Pool(heap, ALL_INPUTS)|)
        decreases |Pool(heap, ALL_INPUTS)|
      {
        ghost var h := heap;
        var buf := heap[0];
        var idx := buf.off / BUFFER_SIZE;
        heap := AdvanceRoot(heap);
        GatherStep(keys, row, h, heap, inputs, idx);
        PoolAdvanced(h, heap, ALL_INPUTS);
        row := row[idx := row[idx] + [buf.Current()]];
        at := idx;
        Gathered(keys, key, row, heap, inputs);
      }
      last := at;
    }

    /** Reads up to max result rows. */
    method Read(max: nat) returns (out: seq<Grouped<V>>, eof: bool)
      requires Valid() && max > 0
      modifies this
      ensures Valid() && |out| <= max && emitted == old(emitted) + out
      ensures (eof <==> out == []) && done == eof && started
      ensures old(started) && out != [] ==> |Pool(heap, ALL_INPUTS)| < old(|Pool(heap, ALL_INPUTS)|)
    {
      hide Grouping, Gathering, Pool, Ready, IsHeap, sorting.Proper, OutKeys, Faithful, Increasing, Vals;
      out := [];
      if done {
        return [], true;
      }
      if !started {
        Start();
      }
      ghost var h, inputs := heap, Rests(readers);
      heap := Init(heap, ByKey);
      Reheaped(emitted, h, heap, inputs);
      PoolPermuted(heap, h, ALL_INPUTS);
      ghost var rest := |Pool(heap, ALL_INPUTS)|;
      while |out| < max && heap != []
        invariant Grouping(emitted, heap, inputs) && emitted == old(emitted) + out && |out| <= max
        invariant started && !done && sorting.Proper()
        invariant if out == [] then |Pool(heap, ALL_INPUTS)| == rest else |Pool(heap, ALL_INPUTS)| < rest
        decreases max - |out|
      {
        GroupingRoot(emitted, heap, inputs);
        var key, row, last := Gather();
        var g := Grouped(key, seq(|row|, i requires 0 <= i < |row| => Vals(row[i])));
        PutOut(emitted, key, row, heap, inputs, g, last);
        out := out + [g];
        emitted := emitted + [g];
      }
      if out == [] {
        done := true;
      }
      eof := done;
    }
  }

  lemma GroupingRoot<V(!new)>(out: seq<Grouped<V>>, heap: seq<FrameBuffer<V>>, inputs: seq<seq<Row<V>>>)
    requires Grouping(out, heap, inputs) && heap != []
    ensures heap[0].Loaded() && (out != [] ==> out[|out| - 1].key < RootKey(heap))
    ensures Increasing(out) && forall j :: 0 <= j < |out| ==> Faithful(out[j], inputs)
  {
  }

  /**
   Group-by: strictly increasing keys, each with exactly the values every input
   has for it, and no key of any input is missing.
   */
  ghost predicate IsGroupBy<V(!new)>(out: seq<Grouped<V>>, inputs: seq<seq<Row<V>>>) {
    && Increasing(out)
    && (forall j :: 0 <= j < |out| ==> Faithful(out[j], inputs))
    && (forall i, k :: 0 <= i < |inputs| && k in KeysOf(inputs[i]) ==> k in OutKeys(out))
  }

  lemma GroupingDone<V(!new)>(out: seq<Grouped<V>>, inputs: seq<seq<Row<V>>>)
    requires Grouping(out, [], inputs)
    ensures IsGroupBy(out, inputs)
  {
    hide ValuesOf, Faithful;
    forall i, k | 0 <= i < |inputs| && k in KeysOf(inputs[i])
      ensures k in OutKeys(out)
    {
      assert Left(OutKeys(out), [], inputs, i, k);
      ValuesPresent(inputs[i], k);
      assert |ValuesOf(inputs[i], k)| == |multiset(ValuesOf(inputs[i], k))|;
    }
  }

  /** Cogroup is group-by, whatever the sizes of the frames read. */
  method GroupAll<V(!new)>(c: CogroupReader<V>, frames: nat -> nat) returns (out: seq<Grouped<V>>)
    requires c.Valid() && c.emitted == [] && !c.done && forall i :: frames(i) > 0
    modifies c
    ensures IsGroupBy(out, Rests(c.readers))
  {
    hide Grouping, Pool, IsGroupBy, c.sorting.Proper;
    out := [];
    var i := 0;
    while !c.done
      invariant c.Valid() && c.emitted == out
      decreases !c.started, !c.done, |Pool(c.heap, ALL_INPUTS)|
    {
      var rows, eof := c.Read(frames(i));
      out := out + rows;
      i := i + 1;
    }
    GroupingDone(out, Rests(c.readers));
  }
}
