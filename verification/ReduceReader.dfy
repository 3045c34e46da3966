/**
 The k-way merge-reduce (sortio/reader.go): sorted, combined readers are
 merged, and the values of equal keys are combined.
 */
module ReduceReader {
  import opened Rows
  import opened Heaps
  import opened Monoids
  import opened Streams
  import opened Reduction

  /** A loaded buffer over a stream that has each key at most once. */
  ghost predicate Strict<V(!new)>(b: FrameBuffer<V>) {
    b.Loaded() && StrictlySorted(b.Remaining())
  }

  ghost predicate AllStrict<V(!new)>(bufs: seq<FrameBuffer<V>>) {
    forall i :: 0 <= i < |bufs| ==> Strict(bufs[i])
  }

  /** The reduction of what one buffer holds. */
  ghost function Holding<V(!new)>(f: (V, V) -> V): FrameBuffer<V> -> map<Key, V> {
    (b: FrameBuffer<V>) => Fold(f, map[], b.Remaining())
  }

  /** The reduction of everything the buffers still hold. */
  ghost function RestMap<V(!new)>(f: (V, V) -> V, bufs: seq<FrameBuffer<V>>): map<Key, V> {
    Total(Merging(f), map[], Holding(f), bufs)
  }

  lemma RestConcat<V(!new)>(f: (V, V) -> V, a: seq<FrameBuffer<V>>, b: seq<FrameBuffer<V>>)
    requires AssociativeCommutative(f)
    ensures RestMap(f, a + b) == Merge(f, RestMap(f, a), RestMap(f, b))
  {
    hide CommutativeMonoid, Total;
    MergeIsMonoid(f);
    TotalConcat(Merging(f), map[], Holding(f), a, b);
  }

  lemma RestAppend<V(!new)>(f: (V, V) -> V, bufs: seq<FrameBuffer<V>>, b: FrameBuffer<V>)
    ensures RestMap(f, bufs + [b]) == Merge(f, RestMap(f, bufs), Fold(f, map[], b.Remaining()))
  {
    TotalAppend(Merging(f), map[], Holding(f), bufs, b);
  }

  lemma RestPermuted<V(!new)>(f: (V, V) -> V, a: seq<FrameBuffer<V>>, b: seq<FrameBuffer<V>>)
    requires AssociativeCommutative(f) && multiset(a) == multiset(b)
    ensures RestMap(f, a) == RestMap(f, b)
  {
    hide CommutativeMonoid, Total;
    MergeIsMonoid(f);
    TotalPermuted(Merging(f), map[], Holding(f), a, b);
  }

  /** All rows of the buffers have keys greater than k. */
  ghost predicate Above<V(!new)>(bufs: seq<FrameBuffer<V>>, k: Key) {
    forall i, j :: 0 <= i < |bufs| && 0 <= j < |bufs[i].Remaining()| ==> bufs[i].Remaining()[j].key > k
  }

  lemma {:induction false} AboveKeys<V(!new)>(f: (V, V) -> V, bufs: seq<FrameBuffer<V>>, k: Key)
    requires Above(bufs, k)
    ensures forall x :: x in RestMap(f, bufs) ==> x > k
  {
    if bufs != [] {
      var init, last := bufs[..|bufs| - 1], bufs[|bufs| - 1];
      assert bufs == init + [last];
      AboveKeys(f, init, k);
      RestAppend(f, init, last);
      FoldMeaning(f, last.Remaining());
    }
  }

  /** The buffers after each of them has moved on. */
  ghost function NextAll<V(!new)>(bufs: seq<FrameBuffer<V>>): seq<FrameBuffer<V>>
    requires AllStrict(bufs)
  {
    if bufs == [] then [] else NextAll(bufs[..|bufs| - 1]) + Next(bufs[|bufs| - 1])
  }

  /** The values at the current rows. */
  function Values<V(!new)>(bufs: seq<FrameBuffer<V>>): (vs: seq<V>)
    requires forall i :: 0 <= i < |bufs| ==> bufs[i].Loaded()
    ensures |vs| == |bufs|
  {
    if bufs == [] then [] else Values(bufs[..|bufs| - 1]) + [bufs[|bufs| - 1].Current().val]
  }

  ghost predicate AllAt<V(!new)>(bufs: seq<FrameBuffer<V>>, k: Key) {
    forall i :: 0 <= i < |bufs| ==> Strict(bufs[i]) && bufs[i].Current().key == k
  }

  /** One buffer holds its current row and, with greater keys, the rest. */
  lemma FoldHead<V(!new)>(f: (V, V) -> V, b: FrameBuffer<V>)
    requires AssociativeCommutative(f) && b.Loaded()
    ensures Fold(f, map[], b.Remaining()) == Merge(f, map[b.Current().key := b.Current().val], RestMap(f, Next(b)))
  {
    var r, rest := b.Current(), b.Remaining()[1..];
    assert b.Remaining() == [r] + rest;
    FoldConcat(f, map[], [r], rest);
    assert Fold(f, map[], [r]) == map[r.key := r.val] by {
      FoldAppend(f, map[], [], r);
      assert [] + [r] == [r];
    }
    FoldIsMerge(f, map[r.key := r.val], rest);
    if b.Advance().Filled? {
      MergeIsMonoid(f);
      TotalOne(Merging(f), map[], Holding(f), b.Advance().buf);
    } else {
      assert rest == [];
    }
  }

  lemma MergeExchange<V(!new)>(f: (V, V) -> V, a: map<Key, V>, b: map<Key, V>, c: map<Key, V>, d: map<Key, V>)
    requires AssociativeCommutative(f)
    ensures Merge(f, Merge(f, a, b), Merge(f, c, d)) == Merge(f, Merge(f, a, c), Merge(f, b, d))
  {
    hide CommutativeMonoid, Merge;
    MergeIsMonoid(f);
    Exchange(Merging(f), map[], a, b, c, d);
  }

  lemma MergeUnit<V(!new)>(f: (V, V) -> V, m: map<Key, V>)
    ensures Merge(f, map[], m) == m && Merge(f, m, map[]) == m
  {
  }

  lemma MergeSingletons<V(!new)>(f: (V, V) -> V, k: Key, a: V, b: V)
    ensures Merge(f, map[k := a], map[k := b]) == map[k := f(a, b)]
  {
  }

  /** Buffers that stand at the same key: their values are combined, and the rest goes on. */
  lemma {:induction false} GatheredMap<V(!new)>(f: (V, V) -> V, bufs: seq<FrameBuffer<V>>, k: Key)
    requires AssociativeCommutative(f) && AllAt(bufs, k) && bufs != []
    ensures RestMap(f, bufs) == Merge(f, map[k := Reduce(f, Values(bufs))], RestMap(f, NextAll(bufs)))
    decreases |bufs|
  {
    hide RestMap, Merge, Next, StrictlySorted, AssociativeCommutative;
    var init, last := bufs[..|bufs| - 1], bufs[|bufs| - 1];
    var v := last.Current().val;
    assert bufs == init + [last];
    RestAppend(f, init, last);
    FoldHead(f, last);
    if init == [] {
      assert NextAll(init) == [] && Values(init) == [];
      assert NextAll(bufs) == Next(last) && Values(bufs) == [v];
      NothingLeft(f);
      MergeUnit(f, Fold(f, map[], last.Remaining()));
    } else {
      GatheredMap(f, init, k);
      RestConcat(f, NextAll(init), Next(last));
      ReduceAppend(f, Values(init), v);
      MergeExchange(f, map[k := Reduce(f, Values(init))], RestMap(f, NextAll(init)), map[k := v],
                    RestMap(f, Next(last)));
      MergeSingletons(f, k, Reduce(f, Values(init)), v);
    }
  }

  lemma NothingLeft<V(!new)>(f: (V, V) -> V)
    ensures RestMap(f, []) == map[]
  {
  }

  /** A heap of buffers over combined streams. */
  ghost predicate ReadyStrict<V(!new)>(bufs: seq<FrameBuffer<V>>) {
    AllStrict(bufs) && IsHeap(bufs, ByKey)
  }

  lemma StrictStay<V(!new)>(bufs: seq<FrameBuffer<V>>, bufs': seq<FrameBuffer<V>>)
    requires AllStrict(bufs) && multiset(bufs') <= multiset(bufs)
    ensures AllStrict(bufs')
  {
    forall i | 0 <= i < |bufs'|
      ensures Strict(bufs'[i])
    {
      assert bufs'[i] in multiset(bufs');
      assert bufs'[i] in multiset(bufs);
    }
  }

  /** If the root of the heap is beyond k, so is everything else. */
  lemma RootAbove<V(!new)>(bufs: seq<FrameBuffer<V>>, k: Key)
    requires ReadyStrict(bufs) && (bufs != [] ==> bufs[0].Current().key > k)
    ensures Above(bufs, k)
  {
    forall i, j | 0 <= i < |bufs| && 0 <= j < |bufs[i].Remaining()|
      ensures bufs[i].Remaining()[j].key > k
    {
      RootIsLeast(bufs, ByKey, i);
      assert bufs[i].Remaining()[0] == bufs[i].Current();
    }
  }

  lemma RootAtLeast<V(!new)>(x: FrameBuffer<V>, bufs: seq<FrameBuffer<V>>)
    requires Strict(x) && AllStrict(bufs) && forall y :: y in bufs ==> ByKey(x).AtMost(ByKey(y))
    ensures bufs != [] ==> x.Current().key <= bufs[0].Current().key
  {
    if bufs != [] {
      assert bufs[0] in bufs;
    }
  }

  /** Some buffers at the least key k have been taken off the heap. */
  ghost predicate Gathering<V(!new)>(all: seq<FrameBuffer<V>>, k: Key, combine: seq<FrameBuffer<V>>,
                                     heap: seq<FrameBuffer<V>>) {
    && ReadyStrict(heap) && AllAt(combine, k)
    && multiset(combine + heap) == multiset(all)
    && (heap != [] ==> k <= heap[0].Current().key)
  }

  lemma StartGathering<V(!new)>(heap: seq<FrameBuffer<V>>)
    requires ReadyStrict(heap) && heap != []
    ensures heap[0].Loaded() && Gathering(heap, heap[0].Current().key, [], heap)
  {
    assert [] + heap == heap;
  }

  lemma GatheringLoaded<V(!new)>(all: seq<FrameBuffer<V>>, k: Key, combine: seq<FrameBuffer<V>>,
                                 heap: seq<FrameBuffer<V>>)
    requires Gathering(all, k, combine, heap)
    ensures combine != [] ==> combine[0].Loaded() && combine[0].Current().key == k
    ensures heap != [] ==> heap[0].Loaded()
    ensures IsHeap(heap, ByKey)
  {
  }

  lemma GatherMore<V(!new)>(all: seq<FrameBuffer<V>>, k: Key, combine: seq<FrameBuffer<V>>, heap: seq<FrameBuffer<V>>,
                            buf: FrameBuffer<V>, heap': seq<FrameBuffer<V>>)
    requires Gathering(all, k, combine, heap) && heap != [] && buf == heap[0] && buf.Loaded() && buf.Current().key == k
    requires multiset(heap') + multiset{buf} == multiset(heap) && IsHeap(heap', ByKey)
    requires forall y :: y in heap ==> ByKey(buf).AtMost(ByKey(y))
    ensures Gathering(all, k, combine + [buf], heap')
  {
    hide IsHeap, StrictlySorted;
    PopStep(combine, heap, buf, heap');
  }

  /** Takes all buffers with the least key off the heap. */
  method Gather<V(!new)>(heap: seq<FrameBuffer<V>>) returns (combine: seq<FrameBuffer<V>>, heap': seq<FrameBuffer<V>>)
    requires ReadyStrict(heap) && heap != []
    ensures combine != [] && Gathering(heap, heap[0].Current().key, combine, heap')
    ensures heap' != [] ==> heap'[0].Loaded() && heap[0].Current().key < heap'[0].Current().key
  {
    hide IsHeap, ReadyStrict, Gathering, Replay;
    StartGathering(heap);
    ghost var k := heap[0].Current().key;
    combine, heap' := [], heap;
    GatheringLoaded(heap, k, combine, heap');
    while combine == [] || (heap' != [] && !(combine[0].Current().key < heap'[0].Current().key))
      invariant Gathering(heap, k, combine, heap') && (combine == [] ==> heap' == heap)
      invariant combine != [] ==> combine[0].Loaded() && combine[0].Current().key == k
      invariant heap' != [] ==> heap'[0].Loaded() && k <= heap'[0].Current().key
      decreases |heap'|
    {
      GatheringLoaded(heap, k, combine, heap');
      ghost var before, taken := heap', combine;
      var buf, swaps;
      buf, heap', swaps := Pop(heap', ByKey);
      assert |heap'| < |before| by {
        assert |multiset(before)| == |multiset(heap')| + 1;
        assert |multiset(before)| == |before| && |multiset(heap')| == |heap'|;
      }
      GatherMore(heap, k, taken, before, buf, heap');
      combine := combine + [buf];
      GatheringLoaded(heap, k, combine, heap');
      StillAtLeast(heap, k, combine, heap');
    }
  }

  lemma StillAtLeast<V(!new)>(all: seq<FrameBuffer<V>>, k: Key, combine: seq<FrameBuffer<V>>, heap: seq<FrameBuffer<V>>)
    requires Gathering(all, k, combine, heap)
    ensures heap != [] ==> heap[0].Loaded() && k <= heap[0].Current().key
  {
  }

  lemma PopStep<V(!new)>(combine: seq<FrameBuffer<V>>, heap: seq<FrameBuffer<V>>, buf: FrameBuffer<V>,
                         heap': seq<FrameBuffer<V>>)
    requires ReadyStrict(heap) && multiset(heap') + multiset{buf} == multiset(heap)
    requires forall y :: y in heap ==> ByKey(buf).AtMost(ByKey(y))
    ensures AllStrict(heap') && multiset(combine + [buf] + heap') == multiset(combine + heap)
    ensures Strict(buf) && (heap' != [] ==> buf.Current().key <= heap'[0].Current().key)
  {
    hide IsHeap;
    assert multiset(combine + [buf] + heap') == multiset(combine + heap) by {
      assert multiset(combine + [buf] + heap') == multiset(combine) + (multiset{buf} + multiset(heap'));
    }
    StrictStay(heap, heap');
    assert buf in multiset(heap);
    forall y | y in heap'
      ensures y in heap
    {
      assert y in multiset(heap');
      assert y in multiset(heap);
    }
    RootAtLeast(buf, heap');
  }

  lemma NextStrict<V(!new)>(b: FrameBuffer<V>)
    requires Strict(b)
    ensures AllStrict(Next(b))
  {
  }

  /** Moves the gathered buffers on and puts those that are not drained back on the heap. */
  method PushBack<V(!new)>(combine: seq<FrameBuffer<V>>, heap: seq<FrameBuffer<V>>) returns (heap': seq<FrameBuffer<V>>)
    requires ReadyStrict(heap) && AllStrict(combine)
    ensures ReadyStrict(heap') && multiset(heap') == multiset(heap + NextAll(combine))
  {
    hide IsHeap, AllStrict, NextAll, Replay;
    heap' := heap;
    NothingPushed(combine, heap);
    for i := 0 to |combine|
      invariant ReadyStrict(heap') && AllStrict(combine[..i]) &&
                multiset(heap') == multiset(heap + NextAll(combine[..i]))
    {
      PushStep(combine, heap, i);
      match combine[i].Advance() {
        case EOF =>
        case Filled(b) =>
          ghost var before := heap';
          var swaps;
          heap', swaps := Push(heap', ByKey, b);
          StrictStay(before + [b], heap');
      }
    }
    assert combine[..|combine|] == combine;
  }

  lemma PushStep<V(!new)>(combine: seq<FrameBuffer<V>>, heap: seq<FrameBuffer<V>>, i: nat)
    requires AllStrict(combine) && i < |combine| && AllStrict(combine[..i])
    ensures combine[i].Loaded() && AllStrict(combine[..i + 1])
    ensures heap + NextAll(combine[..i + 1]) == heap + NextAll(combine[..i]) + Next(combine[i])
    ensures combine[i].Advance().Filled? ==> forall bufs :: AllStrict(bufs) ==>
              AllStrict(bufs + [combine[i].Advance().buf])
  {
    assert combine[..i + 1][..i] == combine[..i];
    NextStrict(combine[i]);
    if combine[i].Advance().Filled? {
      assert Next(combine[i])[0] == combine[i].Advance().buf;
    }
  }

  lemma NothingPushed<V(!new)>(combine: seq<FrameBuffer<V>>, heap: seq<FrameBuffer<V>>)
    ensures AllStrict(combine[..0]) && heap + NextAll(combine[..0]) == heap
  {
  }

  lemma {:induction false} NextAbove<V(!new)>(bufs: seq<FrameBuffer<V>>, k: Key)
    requires AllAt(bufs, k)
    ensures AllStrict(bufs) && Above(NextAll(bufs), k)
  {
    if bufs != [] {
      var init, last := bufs[..|bufs| - 1], bufs[|bufs| - 1];
      NextAbove(init, k);
      assert last.Remaining()[0] == last.Current();
      assert Above(Next(last), k);
    }
  }

  lemma AbovePermuted<V(!new)>(a: seq<FrameBuffer<V>>, b: seq<FrameBuffer<V>>, k: Key)
    requires multiset(a) == multiset(b) && Above(a, k)
    ensures Above(b, k)
  {
    forall i | 0 <= i < |b|
      ensures forall j :: 0 <= j < |b[i].Remaining()| ==> b[i].Remaining()[j].key > k
    {
      assert b[i] in multiset(b);
      assert b[i] in multiset(a);
    }
  }

  lemma AboveConcat<V(!new)>(a: seq<FrameBuffer<V>>, b: seq<FrameBuffer<V>>, k: Key)
    requires Above(a, k) && Above(b, k)
    ensures Above(a + b, k)
  {
  }

  /** Reducing at the least key takes that key out of the rest. */
  lemma GatheredRest<V(!new)>(f: (V, V) -> V, k: Key, heap: seq<FrameBuffer<V>>, combine: seq<FrameBuffer<V>>,
                              heap1: seq<FrameBuffer<V>>, heap2: seq<FrameBuffer<V>>)
    requires AssociativeCommutative(f) && combine != [] && Gathering(heap, k, combine, heap1) && AllStrict(combine)
    requires multiset(heap2) == multiset(heap1 + NextAll(combine))
    ensures RestMap(f, heap) == Merge(f, map[k := Reduce(f, Values(combine))], RestMap(f, heap2))
  {
    hide RestMap, Merge, NextAll, Values, Reduce, Merging, CommutativeMonoid, StrictlySorted, IsHeap;
    var one, next, rest := map[k := Reduce(f, Values(combine))], RestMap(f, NextAll(combine)), RestMap(f, heap1);
    RestPermuted(f, heap, combine + heap1);
    RestConcat(f, combine, heap1);
    GatheredMap(f, combine, k);
    MergeLaws(f, one, next, rest);
    RestPermuted(f, heap2, heap1 + NextAll(combine));
    RestConcat(f, heap1, NextAll(combine));
  }

  lemma MergeLaws<V(!new)>(f: (V, V) -> V, a: map<Key, V>, b: map<Key, V>, c: map<Key, V>)
    requires AssociativeCommutative(f)
    ensures Merge(f, Merge(f, a, b), c) == Merge(f, a, Merge(f, c, b))
    ensures Merge(f, Merge(f, a, b), c) == Merge(f, a, Merge(f, b, c))
  {
    hide CommutativeMonoid, Merge;
    MergeIsMonoid(f);
    Associate(Merging(f), map[], a, b, c);
    Commute(Merging(f), map[], b, c);
  }

  lemma UpsertIsMerge<V(!new)>(f: (V, V) -> V, m: map<Key, V>, k: Key, v: V)
    ensures Upsert(f, m, Row(k, v)) == Merge(f, m, map[k := v])
  {
  }

  ghost predicate KeysAbove<V>(m: map<Key, V>, k: Key) {
    forall x :: x in m ==> x > k
  }

  /** `out` has been reduced out of `all`; the heap holds the rest, at greater keys. */
  ghost predicate Emitted<V(!new)>(f: (V, V) -> V, out: seq<Row<V>>, heap: seq<FrameBuffer<V>>, all: map<Key, V>) {
    && ReadyStrict(heap) && StrictlySorted(out)
    && (out != [] ==> KeysAbove(RestMap(f, heap), out[|out| - 1].key))
    && Merge(f, Fold(f, map[], out), RestMap(f, heap)) == all
  }

  lemma EmitStep<V(!new)>(f: (V, V) -> V, out: seq<Row<V>>, heap: seq<FrameBuffer<V>>, combine: seq<FrameBuffer<V>>,
                          heap1: seq<FrameBuffer<V>>, heap2: seq<FrameBuffer<V>>, all: map<Key, V>)
    requires AssociativeCommutative(f) && Emitted(f, out, heap, all) && heap != [] && heap[0].Loaded() && combine != []
    requires AllStrict(combine) && Gathering(heap, heap[0].Current().key, combine, heap1)
    requires heap1 != [] ==> heap1[0].Loaded() && heap[0].Current().key < heap1[0].Current().key
    requires ReadyStrict(heap2) && multiset(heap2) == multiset(heap1 + NextAll(combine))
    ensures Emitted(f, out + [Row(heap[0].Current().key, Reduce(f, Values(combine)))], heap2, all)
  {
    hide RestMap, NextAll, Values, Reduce, IsHeap, Fold, Above, Gathering;
    var k, v := heap[0].Current().key, Reduce(f, Values(combine));
    GatheredRest(f, k, heap, combine, heap1, heap2);
    EmitFold(f, out, k, v, RestMap(f, heap2));
    BeyondKey(heap, combine, heap1, heap2, k);
    AboveKeys(f, heap2, k);
    assert k in RestMap(f, heap);
  }

  lemma EmitFold<V(!new)>(f: (V, V) -> V, out: seq<Row<V>>, k: Key, v: V, rest: map<Key, V>)
    requires AssociativeCommutative(f)
    ensures Merge(f, Fold(f, map[], out), Merge(f, map[k := v], rest)) ==
            Merge(f, Fold(f, map[], out + [Row(k, v)]), rest)
  {
    hide Merge, Fold, Upsert;
    FoldAppend(f, map[], out, Row(k, v));
    UpsertIsMerge(f, Fold(f, map[], out), k, v);
    MergeLaws(f, Fold(f, map[], out), map[k := v], rest);
  }

  lemma BeyondKey<V(!new)>(heap: seq<FrameBuffer<V>>, combine: seq<FrameBuffer<V>>,
                           heap1: seq<FrameBuffer<V>>, heap2: seq<FrameBuffer<V>>, k: Key)
    requires heap != [] && heap[0].Loaded() && heap[0].Current().key == k && AllStrict(combine)
    requires Gathering(heap, k, combine, heap1) && (heap1 != [] ==> heap1[0].Loaded() && k < heap1[0].Current().key)
    requires multiset(heap2) == multiset(heap1 + NextAll(combine))
    ensures Above(heap2, k)
  {
    hide IsHeap, NextAll, StrictlySorted;
    RootAbove(heap1, k);
    NextAbove(combine, k);
    AboveConcat(heap1, NextAll(combine), k);
    AbovePermuted(heap1 + NextAll(combine), heap2, k);
  }

  /** One more reader has been looked at, and its buffer kept if it has data. */
  lemma FillStep<V(!new)>(f: (V, V) -> V, bufs: seq<FrameBuffer<V>>, readers: seq<Reader<V>>, i: nat, b: FrameBuffer<V>)
    requires i < |readers| && AllStrict(bufs) && RestMap(f, bufs) == Reduced(f, Rests(readers[..i]))
    requires StrictlySorted(readers[i].rest) && b.reader == readers[i] && b.frame == [] && b.index == 0 && b.cap > 0
    ensures match b.Fill()
            case EOF => RestMap(f, bufs) == Reduced(f, Rests(readers[..i + 1]))
            case Filled(b') => AllStrict(bufs + [b']) && RestMap(f, bufs + [b']) == Reduced(f, Rests(readers[..i + 1]))
  {
    hide AllStrict, StrictlySorted, Merge;
    assert Rests(readers[..i + 1]) == Rests(readers[..i]) + [readers[i].rest];
    TotalAppend(Merging(f), map[], run => Fold(f, map[], run), Rests(readers[..i]), readers[i].rest);
    if b.Fill().Filled? {
      RestAppend(f, bufs, b.Fill().buf);
      StrictAppend(bufs, b.Fill().buf);
    } else {
      MergeUnit(f, Reduced(f, Rests(readers[..i])));
    }
  }

  lemma StrictAppend<V(!new)>(bufs: seq<FrameBuffer<V>>, b: FrameBuffer<V>)
    requires AllStrict(bufs) && Strict(b)
    ensures AllStrict(bufs + [b])
  {
  }

  lemma NoReaders<V(!new)>(f: (V, V) -> V, readers: seq<Reader<V>>)
    ensures AllStrict<V>([]) && RestMap(f, []) == Reduced(f, Rests(readers[..0]))
  {
  }

  class Reducer<V(!new)> {
    const combiner: (V, V) -> V
    var heap: seq<FrameBuffer<V>>

    ghost predicate Valid()
      reads this
    {
      AssociativeCommutative(combiner) && ReadyStrict(heap)
    }

    /** The reduction of what is still to be read. */
    ghost function Rest(): map<Key, V>
      reads this
    {
      RestMap(combiner, heap)
    }

    /** Fills a buffer from each reader; readers without data are skipped. */
    constructor (readers: seq<Reader<V>>, chunk: nat, combiner: (V, V) -> V)
      requires AssociativeCommutative(combiner) && chunk > 0
      requires forall i :: 0 <= i < |readers| ==> StrictlySorted(readers[i].rest)
      ensures Valid() && this.combiner == combiner && Rest() == Reduced(combiner, Rests(readers))
    {
      hide AllStrict, IsHeap, RestMap, Reduced, StrictlySorted, Rests, AssociativeCommutative;
      var bufs: seq<FrameBuffer<V>> := [];
      NoReaders(combiner, readers);
      for i := 0 to |readers|
        invariant AllStrict(bufs) && RestMap(combiner, bufs) == Reduced(combiner, Rests(readers[..i]))
      {
        var buf := FrameBuffer(i * chunk, chunk, [], 0, readers[i]);
        FillStep(combiner, bufs, readers, i, buf);
        match buf.Fill() {
          case EOF =>
          case Filled(b) =>
            bufs := bufs + [b];
        }
      }
      assert readers[..|readers|] == readers;
      var h := Init(bufs, ByKey);
      StrictStay(bufs, h);
      RestPermuted(combiner, h, bufs);
      heap, this.combiner := h, combiner;
    }

    /** Reads up to max reduced rows. */
    method Read(max: nat) returns (out: seq<Row<V>>, eof: bool)
      requires Valid()
      modifies this`heap
      ensures Valid() && |out| <= max
      ensures Emitted(combiner, out, heap, old(Rest()))
      ensures (eof <==> heap == []) && (max > 0 && !eof ==> out != [])
    {
      hide ReadyStrict, Emitted, RestMap, NextAll, Gathering, AssociativeCommutative, AllStrict, IsHeap;
      out := [];
      ghost var all := Rest();
      NothingEmitted(combiner, heap);
      while |out| < max && heap != []
        invariant ReadyStrict(heap) && Emitted(combiner, out, heap, all) && |out| <= max
        decreases max - |out|
      {
        ghost var h := heap;
        StartGathering(heap);
        var combine, heap1 := Gather(heap);
        GatheredStrict(h, heap[0].Current().key, combine, heap1);
        var combined := Combined(combine, combiner);
        var emitted := Row(combine[0].Current().key, combined);
        heap := PushBack(combine, heap1);
        EmitStep(combiner, out, h, combine, heap1, heap, all);
        out := out + [emitted];
      }
      eof := heap == [];
    }
  }

  lemma NothingEmitted<V(!new)>(f: (V, V) -> V, heap: seq<FrameBuffer<V>>)
    requires ReadyStrict(heap)
    ensures Emitted(f, [], heap, RestMap(f, heap))
  {
    MergeUnit(f, RestMap(f, heap));
  }

  lemma GatheredStrict<V(!new)>(all: seq<FrameBuffer<V>>, k: Key, combine: seq<FrameBuffer<V>>,
                                heap: seq<FrameBuffer<V>>)
    requires Gathering(all, k, combine, heap)
    ensures AllStrict(combine) && ReadyStrict(heap)
    ensures forall i :: 0 <= i < |combine| ==> combine[i].Loaded() && combine[i].Current().key == k
  {
  }

  /** Combines the values of the gathered buffers in the order they came off the heap. */
  method Combined<V(!new)>(bufs: seq<FrameBuffer<V>>, f: (V, V) -> V) returns (v: V)
    requires bufs != [] && forall i :: 0 <= i < |bufs| ==> bufs[i].Loaded()
    ensures v == Reduce(f, Values(bufs))
  {
    v := bufs[0].Current().val;
    assert bufs[..1] == [bufs[0]] && Values([bufs[0]]) == [v] by {
      assert [bufs[0]][..0] == [];
    }
    for i := 1 to |bufs|
      invariant v == Reduce(f, Values(bufs[..i]))
    {
      assert bufs[..i + 1][..i] == bufs[..i];
      ReduceAppend(f, Values(bufs[..i]), bufs[i].Current().val);
      v := f(v, bufs[i].Current().val);
    }
    assert bufs[..|bufs|] == bufs;
  }

  /** The keys of what was emitted and of the rest are those of the whole, and lie apart. */
  lemma EmittedKeys<V(!new)>(f: (V, V) -> V, out: seq<Row<V>>, heap: seq<FrameBuffer<V>>, all: map<Key, V>)
    requires Emitted(f, out, heap, all)
    ensures all.Keys == KeysOf(out) + RestMap(f, heap).Keys
    ensures KeysOf(out) !! RestMap(f, heap).Keys
  {
    hide RestMap, ReadyStrict, Fold, ValuesOf, Reduce;
    FoldMeaning(f, out);
    if out != [] {
      forall k | k in KeysOf(out)
        ensures k !in RestMap(f, heap)
      {
        var i :| 0 <= i < |out| && out[i].key == k;
        assert k <= out[|out| - 1].key;
      }
    }
  }

  lemma SmallerRest<V(!new)>(f: (V, V) -> V, rows: seq<Row<V>>, heap: seq<FrameBuffer<V>>, heap': seq<FrameBuffer<V>>)
    requires Emitted(f, rows, heap', RestMap(f, heap)) && rows != []
    ensures |RestMap(f, heap').Keys| < |RestMap(f, heap).Keys|
  {
    hide RestMap, Emitted;
    EmittedKeys(f, rows, heap', RestMap(f, heap));
    assert rows[0].key in KeysOf(rows);
    assert |RestMap(f, heap).Keys| == |KeysOf(rows)| + |RestMap(f, heap').Keys|;
  }

  /** Successive reads amount to one. */
  lemma EmitMore<V(!new)>(f: (V, V) -> V, out: seq<Row<V>>, rows: seq<Row<V>>, heap: seq<FrameBuffer<V>>,
                          heap': seq<FrameBuffer<V>>, all: map<Key, V>)
    requires AssociativeCommutative(f) && Emitted(f, out, heap, all) && Emitted(f, rows, heap', RestMap(f, heap))
    ensures Emitted(f, out + rows, heap', all)
  {
    hide RestMap, ReadyStrict, Merge, Fold, AssociativeCommutative;
    EmittedKeys(f, rows, heap', RestMap(f, heap));
    FoldConcat(f, map[], out, rows);
    FoldIsMerge(f, Fold(f, map[], out), rows);
    MergeLaws(f, Fold(f, map[], out), Fold(f, map[], rows), RestMap(f, heap'));
    forall j | 0 <= j < |rows|
      ensures rows[j].key in RestMap(f, heap)
    {
      assert rows[j].key in KeysOf(rows);
    }
  }

  /** Reads everything, in frames of any sizes. */
  method DrainReduced<V(!new)>(r: Reducer<V>, frames: nat -> nat) returns (out: seq<Row<V>>)
    requires r.Valid() && forall i :: frames(i) > 0
    modifies r
    ensures StrictlySorted(out) && Fold(r.combiner, map[], out) == old(r.Rest())
  {
    hide Emitted, ReadyStrict, RestMap, AssociativeCommutative, Fold;
    out := [];
    ghost var all := r.Rest();
    NothingEmitted(r.combiner, r.heap);
    var i, eof := 0, false;
    while !eof
      invariant r.Valid() && Emitted(r.combiner, out, r.heap, all) && (eof ==> r.heap == [])
      decreases |r.Rest().Keys|, !eof
    {
      ghost var before := r.heap;
      var rows;
      rows, eof := r.Read(frames(i));
      if rows != [] {
        SmallerRest(r.combiner, rows, before, r.heap);
      } else {
        SameRest(r.combiner, before, r.heap);
      }
      EmitMore(r.combiner, out, rows, before, r.heap, all);
      out := out + rows;
      i := i + 1;
    }
    NoneLeft(r.combiner, out, all);
  }

  lemma SameRest<V(!new)>(f: (V, V) -> V, heap: seq<FrameBuffer<V>>, heap': seq<FrameBuffer<V>>)
    requires Emitted(f, [], heap', RestMap(f, heap))
    ensures RestMap(f, heap') == RestMap(f, heap)
  {
    MergeUnit(f, RestMap(f, heap'));
  }

  lemma NoneLeft<V(!new)>(f: (V, V) -> V, out: seq<Row<V>>, all: map<Key, V>)
    requires Emitted(f, out, [], all)
    ensures StrictlySorted(out) && Fold(f, map[], out) == all
  {
    NothingLeft(f);
    MergeUnit(f, Fold(f, map[], out));
  }
}
