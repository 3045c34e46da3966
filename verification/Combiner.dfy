/**
 The spilling combiner (exec/combiner.go): a combining frame that is compacted
 and spilled, sorted, whenever it has grown beyond a target size, and whose
 reader merges everything back.
 */
module Combiner {
  import opened Rows
  import opened Probing
  import opened HashTable
  import opened CombiningFrame
  import opened Streams
  import opened Reduction
  import opened MergeReader
  import opened ReduceReader

  lemma {:induction false} DistinctBySize<V(!new)>(rows: seq<Row<V>>)
    ensures |KeysOf(rows)| <= |rows|
    ensures |KeysOf(rows)| == |rows| <==> DistinctKeys(rows)
  {
    if rows != [] {
      var init, last := rows[..|rows| - 1], rows[|rows| - 1];
      assert rows == init + [last];
      DistinctBySize(init);
      KeysOfAppend(init, last);
      if last.key in KeysOf(init) {
        var i :| 0 <= i < |init| && init[i].key == last.key;
        assert rows[i].key == rows[|rows| - 1].key;
        assert KeysOf(rows) == KeysOf(init);
      } else {
        if DistinctKeys(init) {
          DistinctAppend(init, last);
        } else {
          assert forall i :: 0 <= i < |init| ==> rows[i] == init[i];
        }
      }
    }
  }

  lemma KeysPermuted<V(!new)>(a: seq<Row<V>>, b: seq<Row<V>>)
    requires multiset(a) == multiset(b)
    ensures KeysOf(a) <= KeysOf(b)
  {
    forall k | k in KeysOf(a)
      ensures k in KeysOf(b)
    {
      var i :| 0 <= i < |a| && a[i].key == k;
      assert a[i] in multiset(a);
      assert a[i] in multiset(b);
      var j :| 0 <= j < |b| && b[j] == a[i];
      assert b[j].key == k;
    }
  }

  lemma DistinctPermuted<V(!new)>(a: seq<Row<V>>, b: seq<Row<V>>)
    requires multiset(a) == multiset(b) && DistinctKeys(a)
    ensures DistinctKeys(b) && KeysOf(a) == KeysOf(b)
  {
    KeysPermuted(a, b);
    KeysPermuted(b, a);
    assert KeysOf(a) == KeysOf(b);
    DistinctBySize(a);
    DistinctBySize(b);
    SameLength(a, b);
  }

  /** Without duplicate keys nothing is combined. */
  lemma {:induction false} FoldDistinct<V(!new)>(f: (V, V) -> V, rows: seq<Row<V>>)
    requires DistinctKeys(rows)
    ensures forall i :: 0 <= i < |rows| ==>
              rows[i].key in Fold(f, map[], rows) && Fold(f, map[], rows)[rows[i].key] == rows[i].val
  {
    if rows != [] {
      var init, last := rows[..|rows| - 1], rows[|rows| - 1];
      FoldDistinct(f, init);
      FoldMeaning(f, init);
      forall i | 0 <= i < |init|
        ensures init[i].key != last.key
      {
        assert rows[i] == init[i];
      }
      forall i | 0 <= i < |rows|
        ensures rows[i].key in Fold(f, map[], rows) && Fold(f, map[], rows)[rows[i].key] == rows[i].val
      {
        if i < |init| {
          assert rows[i] == init[i] && rows[i].key in KeysOf(init);
        }
      }
    }
  }

  lemma SameValue<V(!new)>(f: (V, V) -> V, a: seq<Row<V>>, b: seq<Row<V>>, i: nat)
    requires DistinctKeys(a) && DistinctKeys(b) && multiset(a) == multiset(b) && i < |a|
    ensures a[i].key in Fold(f, map[], a) && a[i].key in Fold(f, map[], b)
    ensures Fold(f, map[], a)[a[i].key] == Fold(f, map[], b)[a[i].key]
  {
    hide DistinctKeys, Fold;
    FoldDistinct(f, a);
    FoldDistinct(f, b);
    assert a[i] in multiset(a);
    assert a[i] in multiset(b);
    var j :| 0 <= j < |b| && b[j] == a[i];
    assert b[j].key == a[i].key;
  }

  /** Sorting combined rows: strictly increasing, with the same values. */
  lemma SortDistinct<V(!new)>(f: (V, V) -> V, rows: seq<Row<V>>, sorted: seq<Row<V>>)
    requires DistinctKeys(rows) && multiset(sorted) == multiset(rows) && Sorted(sorted)
    ensures StrictlySorted(sorted) && Fold(f, map[], sorted) == Fold(f, map[], rows)
  {
    hide Fold, ValuesOf, Reduce;
    DistinctPermuted(rows, sorted);
    FoldMeaning(f, rows);
    FoldMeaning(f, sorted);
    forall k | k in KeysOf(rows)
      ensures Fold(f, map[], sorted)[k] == Fold(f, map[], rows)[k]
    {
      var i :| 0 <= i < |rows| && rows[i].key == k;
      SameValue(f, rows, sorted, i);
    }
  }

  /** Combining into what is in memory is combining into everything. */
  lemma CombineKeeps<V(!new)>(f: (V, V) -> V, spilled: map<Key, V>, held: map<Key, V>, history: seq<Row<V>>,
                              rows: seq<Row<V>>)
    requires AssociativeCommutative(f) && Merge(f, spilled, held) == Fold(f, map[], history)
    ensures Merge(f, spilled, Fold(f, held, rows)) == Fold(f, map[], history + rows)
  {
    hide Merge, Fold, AssociativeCommutative;
    FoldConcat(f, map[], history, rows);
    FoldIsMerge(f, Fold(f, map[], history), rows);
    FoldIsMerge(f, held, rows);
    MergeLaws(f, spilled, held, Fold(f, map[], rows));
  }

  /** Spilling moves what is in memory to the spilled runs. */
  lemma SpillKeeps<V(!new)>(f: (V, V) -> V, spills: seq<seq<Row<V>>>, rows: seq<Row<V>>, sorted: seq<Row<V>>)
    requires AssociativeCommutative(f) && DistinctKeys(rows) && multiset(sorted) == multiset(rows) && Sorted(sorted)
    ensures StrictlySorted(sorted)
    ensures Reduced(f, spills + [sorted]) == Merge(f, Reduced(f, spills), Fold(f, map[], rows))
    ensures Merge(f, Reduced(f, spills + [sorted]), map[]) == Reduced(f, spills + [sorted])
  {
    hide Merge, Fold, Reduced, StrictlySorted, Sorted;
    SortDistinct(f, rows, sorted);
    ReducedAppend(f, spills, sorted);
    FoldIsMerge(f, Reduced(f, spills), sorted);
    MergeUnit(f, Reduced(f, spills + [sorted]));
  }

  /** A reader over one frame: it returns as much as fits and reports the end with the last rows. */
  function FrameReader<V>(rows: seq<Row<V>>): (r: Reader<V>)
    ensures r.rest == rows
    ensures forall max: nat :: r.Take(max) == if max < |rows| then max else |rows|
    ensures forall max: nat :: r.Ends(max) <==> max >= |rows|
  {
    Reader(rows, _ => |rows| + 1, _ => true, 0)
  }

  lemma ListedReaders<V(!new)>(f: (V, V) -> V, spills: seq<seq<Row<V>>>, readers: seq<Reader<V>>, last: seq<Row<V>>)
    requires AssociativeCommutative(f) && multiset(Rests(readers)) == multiset(spills)
    requires StrictlySorted(last) && forall i :: 0 <= i < |spills| ==> StrictlySorted(spills[i])
    ensures Reduced(f, Rests(readers + [FrameReader(last)])) == Reduced(f, spills + [last])
    ensures forall i :: 0 <= i < |readers + [FrameReader(last)]| ==>
              StrictlySorted((readers + [FrameReader(last)])[i].rest)
  {
    hide Reduced, StrictlySorted;
    assert Rests(readers + [FrameReader(last)]) == Rests(readers) + [last];
    assert multiset(Rests(readers) + [last]) == multiset(spills + [last]);
    ReducedPermuted(f, Rests(readers) + [last], spills + [last]);
    forall i | 0 <= i < |readers|
      ensures StrictlySorted(readers[i].rest)
    {
      assert Rests(readers)[i] in multiset(Rests(readers));
      assert readers[i].rest in multiset(spills);
    }
  }

  class Combiner<V(!new)> {
    const f: (V, V) -> V
    const targetSize: nat
    const sort: seq<Row<V>> -> seq<Row<V>>
    const comb: CombiningFrame<V>
    var spills: seq<seq<Row<V>>>
    var total: nat
    // history holds all rows ever combined, in order.
    ghost var history: seq<Row<V>>

    ghost predicate Valid()
      reads this, comb, comb.data, comb.hits
    {
      && AssociativeCommutative(f) && IsSort(sort) && comb.combiner == f && comb.Valid()
      && (forall i :: 0 <= i < |spills| ==> StrictlySorted(spills[i]))
      && Merge(f, Reduced(f, spills), comb.Contents()) == Fold(f, map[], history)
    }

    constructor (f: (V, V) -> V, targetSize: nat, sort: seq<Row<V>> -> seq<Row<V>>, hash: Key -> nat, zero: Row<V>,
                 n: nat, nscratch: nat)
      requires AssociativeCommutative(f) && IsSort(sort)
      requires PowerOfTwo(n) && n <= HASH_MAX_CAPACITY && nscratch > 0
      ensures Valid() && history == [] && this.f == f
      ensures fresh(comb) && fresh(comb.data) && fresh(comb.hits)
    {
      hide AssociativeCommutative, IsSort, Merge, Fold, Reduced, StrictlySorted;
      this.f, this.targetSize, this.sort := f, targetSize, sort;
      comb := new CombiningFrame(f, hash, zero, n, nscratch);
      spills, total, history := [], 0, [];
      new;
      NothingCombined(f);
    }

    /** Compacts the frame, and sorts and spills what it held. */
    method Spill()
      requires Valid()
      modifies this, comb, comb.data, comb.hits
      ensures Valid() && comb.data == old(comb.data) && comb.hits == old(comb.hits)
      ensures comb.Len() == 0 && history == old(history) && |spills| == |old(spills)| + 1
    {
      hide AssociativeCommutative, Merge, Fold, Reduced, StrictlySorted, Sorted, DistinctKeys, comb.InOrder,
           comb.Contents;
      var rows := comb.Compact();
      var sorted := sort(rows);
      SpillKeeps(f, spills, rows, sorted);
      spills := spills + [sorted];
      total := 0;
    }

    /**
     Combines a frame. If the combiner held as many keys as its target before,
     everything is spilled. It fails when the table would outgrow its maximal
     capacity.
     */
    method Combine(rows: seq<Row<V>>) returns (ok: bool)
      requires Valid()
      modifies this, comb, comb.data, comb.hits
      ensures fresh(comb.data) || comb.data == old(comb.data)
      ensures fresh(comb.hits) || comb.hits == old(comb.hits)
      ensures ok <==> |Fold(f, old(comb.Contents()), rows)| <= Threshold(HASH_MAX_CAPACITY)
      ensures ok ==> Valid() && history == old(history) + rows
      ensures ok && old(comb.Len()) < targetSize ==> spills == old(spills)
      ensures ok && old(comb.Len()) >= targetSize ==> comb.Len() == 0 && |spills| == |old(spills)| + 1
    {
      hide AssociativeCommutative, IsSort, Merge, Fold, Reduced, StrictlySorted, comb.Contents, Table.Valid, Count;
      total := total + |rows|;
      var nkeys := comb.Len();
      ghost var held := comb.Contents();
      ok := comb.Combine(rows);
      if !ok {
        return;
      }
      CombineKeeps(f, Reduced(f, spills), held, history, rows);
      history := history + rows;
      if nkeys >= targetSize {
        Spill();
      }
    }

    /**
     A reader of everything combined so far: the spilled runs, which are listed
     in any order and read back in any batches, and what is in memory.
     */
    method Reader(list: seq<seq<Row<V>>> -> seq<Reader<V>>, chunk: nat) returns (r: Reducer<V>)
      requires Valid() && ListsAll(list) && chunk > 0
      modifies this, comb, comb.data, comb.hits
      ensures fresh(r) && r.Valid() && r.combiner == f && r.Rest() == Fold(f, map[], history)
      ensures history == old(history)
    {
      hide AssociativeCommutative, Merge, Fold, Reduced, StrictlySorted, Sorted, DistinctKeys, comb.InOrder,
           comb.Contents;
      var readers := list(spills);
      var rows := comb.Compact();
      var sorted := sort(rows);
      SpillKeeps(f, spills, rows, sorted);
      ListedReaders(f, spills, readers, sorted);
      r := new Reducer(readers + [FrameReader(sorted)], chunk, f);
    }
  }

  lemma NothingCombined<V(!new)>(f: (V, V) -> V)
    ensures Merge(f, Reduced(f, []), map[]) == Fold(f, map[], [])
  {
  }

  /** Rows with strictly increasing keys, one for each key, with the reduction of its values in order of arrival. */
  ghost predicate Collected<V(!new)>(f: (V, V) -> V, rows: seq<Row<V>>, out: seq<Row<V>>) {
    && StrictlySorted(out)
    && KeysOf(out) == KeysOf(rows)
    && forall i :: 0 <= i < |out| ==>
         ValuesOf(rows, out[i].key) != [] && out[i].val == Reduce(f, ValuesOf(rows, out[i].key))
  }

  /** Strictly increasing rows that amount to a fold list its keys and values. */
  lemma CollectedFold<V(!new)>(f: (V, V) -> V, rows: seq<Row<V>>, out: seq<Row<V>>)
    requires StrictlySorted(out) && Fold(f, map[], out) == Fold(f, map[], rows)
    ensures Collected(f, rows, out)
  {
    hide Fold, ValuesOf, Reduce;
    assert DistinctKeys(out);
    FoldMeaning(f, rows);
    FoldMeaning(f, out);
    FoldDistinct(f, out);
    forall i | 0 <= i < |out|
      ensures ValuesOf(rows, out[i].key) != [] && out[i].val == Reduce(f, ValuesOf(rows, out[i].key))
    {
      assert out[i].key in KeysOf(out);
    }
  }

  lemma FlattenNext<T>(parts: seq<seq<T>>, i: nat)
    requires i < |parts|
    ensures Flatten(parts[..i + 1]) == Flatten(parts[..i]) + parts[i]
  {
    assert parts[..i + 1][..i] == parts[..i];
  }

  lemma {:induction false} FlattenPrefix<T>(parts: seq<seq<T>>, i: nat)
    requires i <= |parts|
    ensures Flatten(parts[..i]) <= Flatten(parts)
    decreases |parts| - i
  {
    if i == |parts| {
      assert parts[..i] == parts;
    } else {
      FlattenNext(parts, i);
      FlattenPrefix(parts, i + 1);
    }
  }

  /** What is in memory never has more keys than what was combined. */
  lemma OverflowMeans<V(!new)>(f: (V, V) -> V, spilled: map<Key, V>, held: map<Key, V>, history: seq<Row<V>>,
                               rows: seq<Row<V>>, all: seq<Row<V>>)
    requires AssociativeCommutative(f) && Merge(f, spilled, held) == Fold(f, map[], history) && history + rows <= all
    ensures |Fold(f, held, rows)| <= |KeysOf(all)|
  {
    hide Fold, AssociativeCommutative;
    CombineKeeps(f, spilled, held, history, rows);
    FoldMeaning(f, all);
    assert all == (history + rows) + all[|history + rows|..];
    FoldConcat(f, map[], history + rows, all[|history + rows|..]);
    FoldKeepsKeys(f, Fold(f, map[], history + rows), all[|history + rows|..]);
    SubsetSize(Fold(f, held, rows).Keys, KeysOf(all));
  }

  /**
   Spilling is invisible: whatever the batches, the target size, the order of
   the spilled runs and the sizes of the frames read, every key comes out
   once, in increasing order, with the reduction of all its values.
   */
  method CombineAll<V(!new)>(c: Combiner<V>, batches: seq<seq<Row<V>>>, list: seq<seq<Row<V>>> -> seq<Reader<V>>,
                             chunk: nat, frames: nat -> nat)
    returns (ok: bool, out: seq<Row<V>>)
    requires c.Valid() && c.history == [] && ListsAll(list) && chunk > 0 && forall i :: frames(i) > 0
    modifies c, c.comb, c.comb.data, c.comb.hits
    ensures ok ==> Collected(c.f, Flatten(batches), out)
    ensures !ok ==> |KeysOf(Flatten(batches))| > 375_809_638
  {
    hide AssociativeCommutative, IsSort, Merge, Fold, Reduced, StrictlySorted, KeysOf, Table.Valid, Count, Collected,
         ListsAll, c.comb.Contents, Flatten;
    out := [];
    NoParts<Row<V>>(batches);
    for i := 0 to |batches|
      invariant c.Valid() && c.history == Flatten(batches[..i])
      invariant fresh(c.comb.data) || c.comb.data == old(c.comb.data)
      invariant fresh(c.comb.hits) || c.comb.hits == old(c.comb.hits)
    {
      FlattenNext(batches, i);
      FlattenPrefix(batches, i + 1);
      OverflowMeans(c.f, Reduced(c.f, c.spills), c.comb.Contents(), c.history, batches[i], Flatten(batches));
      ok := c.Combine(batches[i]);
      if !ok {
        return;
      }
    }
    assert batches[..|batches|] == batches;
    ok := true;
    var r := c.Reader(list, chunk);
    out := DrainReduced(r, frames);
    CollectedFold(c.f, c.history, out);
  }

  lemma NoParts<T>(parts: seq<seq<T>>)
    ensures Flatten(parts[..0]) == []
  {
  }
}
