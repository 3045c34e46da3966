/**
 The combining hash table as two sequences: one row and one hit count per slot.
 A slot is in use when its hit count is nonzero.
 */
module HashTable {
  import opened Rows
  import opened Probing

  datatype Table<V> = Table(rows: seq<Row<V>>, hits: seq<nat>) {
    predicate Used(i: nat)
      requires i < |hits|
    {
      hits[i] != 0
    }

    ghost predicate Shaped() {
      |rows| == |hits| && PowerOfTwo(|hits|)
    }

    /** No key is in two slots. */
    ghost predicate Unique()
      requires |rows| == |hits|
    {
      forall i, j :: 0 <= i < j < |rows| && Used(i) && Used(j) ==> rows[i].key != rows[j].key
    }

    /** The first t probes for hash value h hit slots in use. */
    ghost predicate Crowded(h: nat, t: nat)
      requires |hits| > 0
    {
      forall u: nat :: u < t ==> Used(Slot(h, u, |hits|))
    }

    /** Slot i is where the t'th probe for its own key leads, past slots in use. */
    ghost predicate FoundAt(hash: Key -> nat, i: nat, t: nat)
      requires |rows| == |hits| && i < |hits|
    {
      Slot(hash(rows[i].key), t, |hits|) == i && Crowded(hash(rows[i].key), t)
    }

    /** Every key in the table can be found by probing. */
    ghost predicate Findable(hash: Key -> nat)
      requires |rows| == |hits|
    {
      forall i: nat :: i < |hits| && Used(i) ==> exists t: nat :: FoundAt(hash, i, t)
    }

    ghost predicate Valid(hash: Key -> nat) {
      Shaped() && Unique() && Findable(hash)
    }

    /** The value held for each key. */
    ghost function Contents(): map<Key, V>
      requires |rows| == |hits|
    {
      Holdings(rows, hits)
    }

    /** The row r in slot i, with n hits. */
    function Put(i: nat, r: Row<V>, n: nat): Table<V>
      requires i < |rows| && i < |hits|
    {
      Table(rows[i := r], hits[i := n])
    }
  }

  /** The values held in the slots in use. */
  ghost function Holdings<V>(rows: seq<Row<V>>, hits: seq<nat>): map<Key, V>
    requires |rows| == |hits|
  {
    if rows == [] then map[]
    else
      var last := |rows| - 1;
      var m := Holdings(rows[..last], hits[..last]);
      if hits[last] != 0 then m[rows[last].key := rows[last].val] else m
  }

  /** No slot in use, except perhaps i, holds the key. */
  ghost predicate OnlyAt<V>(rows: seq<Row<V>>, hits: seq<nat>, k: Key, i: nat)
    requires |rows| == |hits|
  {
    forall j :: 0 <= j < |rows| && j != i && hits[j] != 0 ==> rows[j].key != k
  }

  lemma {:induction false} HoldingsPut<V>(rows: seq<Row<V>>, hits: seq<nat>, i: nat, r: Row<V>, n: nat)
    requires |rows| == |hits| && i < |rows| && n > 0
    requires OnlyAt(rows, hits, r.key, i) && (hits[i] != 0 ==> rows[i].key == r.key)
    ensures Holdings(rows[i := r], hits[i := n]) == Holdings(rows, hits)[r.key := r.val]
  {
    var last := |rows| - 1;
    var rows0, hits0 := rows[..last], hits[..last];
    if i == last {
      assert rows[i := r][..last] == rows0 && hits[i := n][..last] == hits0;
    } else {
      assert rows[i := r][..last] == rows0[i := r] && hits[i := n][..last] == hits0[i := n];
      HoldingsPut(rows0, hits0, i, r, n);
    }
  }

  lemma {:induction false} HoldingsAt<V>(rows: seq<Row<V>>, hits: seq<nat>, k: Key, i: nat)
    requires |rows| == |hits| && i <= |rows| && OnlyAt(rows, hits, k, i)
    ensures k in Holdings(rows, hits) <==> i < |rows| && hits[i] != 0 && rows[i].key == k
    ensures k in Holdings(rows, hits) ==> Holdings(rows, hits)[k] == rows[i].val
  {
    if rows != [] {
      var last := |rows| - 1;
      HoldingsAt(rows[..last], hits[..last], k, if i < last then i else last);
    }
  }

  /** The number of slots in use. */
  ghost function Count(hits: seq<nat>): nat {
    if hits == [] then 0 else Count(hits[..|hits| - 1]) + if hits[|hits| - 1] != 0 then 1 else 0
  }

  lemma {:induction false} CountFull(hits: seq<nat>)
    requires forall i :: 0 <= i < |hits| ==> hits[i] != 0
    ensures Count(hits) == |hits|
  {
    if hits != [] {
      CountFull(hits[..|hits| - 1]);
    }
  }

  lemma {:induction false} CountUpdate(hits: seq<nat>, i: nat, n: nat)
    requires i < |hits|
    ensures Count(hits[i := n]) == Count(hits) - (if hits[i] != 0 then 1 else 0) + (if n != 0 then 1 else 0)
  {
    var last := |hits| - 1;
    if i == last {
      assert hits[i := n][..last] == hits[..last];
    } else {
      assert hits[i := n][..last] == hits[..last][i := n];
      CountUpdate(hits[..last], i, n);
    }
  }

  /** Probing terminates: a table that is not full cannot be crowded for as many tries as it has slots. */
  lemma NotCrowded<V>(tab: Table<V>, h: nat)
    requires tab.Shaped() && Count(tab.hits) < |tab.hits|
    ensures !tab.Crowded(h, |tab.hits|)
  {
    if tab.Crowded(h, |tab.hits|) {
      forall i: nat | i < |tab.hits|
        ensures tab.hits[i] != 0
      {
        var k := ProbesCover(h, i, |tab.hits|);
        assert tab.Used(Slot(h, k, |tab.hits|));
      }
      CountFull(tab.hits);
    }
  }

  /** Key k has not been met in the first t probes. */
  ghost predicate Missed<V>(tab: Table<V>, h: nat, k: Key, t: nat)
    requires tab.Shaped()
  {
    tab.Crowded(h, t) && forall u: nat :: u < t ==> tab.rows[Slot(h, u, |tab.hits|)].key != k
  }

  lemma MissedNext<V>(tab: Table<V>, h: nat, k: Key, t: nat)
    requires tab.Shaped() && Missed(tab, h, k, t)
    requires tab.Used(Slot(h, t, |tab.hits|)) && tab.rows[Slot(h, t, |tab.hits|)].key != k
    ensures Missed(tab, h, k, t + 1)
  {
  }

  /** A search meets a free slot before it has made as many tries as there are slots. */
  lemma ProbeLimit<V>(tab: Table<V>, h: nat, k: Key)
    requires tab.Shaped() && Count(tab.hits) < |tab.hits|
    ensures Missed(tab, h, k, 0) && !Missed(tab, h, k, |tab.hits|)
  {
    NotCrowded(tab, h);
  }

  /** A probe that ends in a free slot proves that the key is absent. */
  lemma AbsentAfter<V>(tab: Table<V>, hash: Key -> nat, k: Key, t: nat)
    requires tab.Valid(hash) && Missed(tab, hash(k), k, t) && !tab.Used(Slot(hash(k), t, |tab.hits|))
    ensures forall i: nat :: i < |tab.hits| && tab.Used(i) ==> tab.rows[i].key != k
  {
    forall i: nat | i < |tab.hits| && tab.Used(i)
      ensures tab.rows[i].key != k
    {
      var u: nat :| tab.FoundAt(hash, i, u);
      assert t < u ==> tab.Used(Slot(hash(tab.rows[i].key), t, |tab.hits|));
    }
  }

  /** Rows and hits change in one slot, and only to stay or become used by the same key. */
  lemma PutKeeps<V>(tab: Table<V>, hash: Key -> nat, r: Row<V>, s: nat, t: nat, n: nat)
    requires tab.Valid(hash) && n > 0 && s < |tab.hits|
    requires tab.Crowded(hash(r.key), t) && Slot(hash(r.key), t, |tab.hits|) == s
    requires OnlyAt(tab.rows, tab.hits, r.key, s) && (tab.Used(s) ==> tab.rows[s].key == r.key)
    ensures tab.Put(s, r, n).Valid(hash)
    ensures tab.Put(s, r, n).Contents() == tab.Contents()[r.key := r.val]
    ensures r.key in tab.Contents() <==> tab.Used(s)
    ensures tab.Used(s) ==> tab.Contents()[r.key] == tab.rows[s].val
  {
    var tab' := tab.Put(s, r, n);
    assert forall h: nat, u: nat :: tab.Crowded(h, u) ==> tab'.Crowded(h, u);
    forall i: nat | i < |tab.hits| && tab'.Used(i)
      ensures exists u: nat :: tab'.FoundAt(hash, i, u)
    {
      if i == s {
        assert tab'.FoundAt(hash, i, t);
      } else {
        assert tab.Used(i);
        var u: nat :| tab.FoundAt(hash, i, u);
        assert tab'.FoundAt(hash, i, u);
      }
    }
    HoldingsPut(tab.rows, tab.hits, s, r, n);
    HoldingsAt(tab.rows, tab.hits, r.key, s);
  }

  /** Filling the free slot that ends the probe for a new key. */
  lemma InsertKeeps<V>(tab: Table<V>, hash: Key -> nat, r: Row<V>, t: nat, n: nat)
    requires tab.Valid(hash) && n > 0 && Missed(tab, hash(r.key), r.key, t)
    requires !tab.Used(Slot(hash(r.key), t, |tab.hits|))
    ensures var tab' := tab.Put(Slot(hash(r.key), t, |tab.hits|), r, n);
            tab'.Valid(hash) && tab'.Contents() == tab.Contents()[r.key := r.val] && r.key !in tab.Contents()
  {
    AbsentAfter(tab, hash, r.key, t);
    PutKeeps(tab, hash, r, Slot(hash(r.key), t, |tab.hits|), t, n);
  }

  /** Combining into the slot where the probe for a key finds it. */
  lemma UpdateKeeps<V>(tab: Table<V>, hash: Key -> nat, r: Row<V>, t: nat, n: nat)
    requires tab.Valid(hash) && n > 0 && tab.Crowded(hash(r.key), t)
    requires var s := Slot(hash(r.key), t, |tab.hits|); tab.Used(s) && tab.rows[s].key == r.key
    ensures var s := Slot(hash(r.key), t, |tab.hits|);
            && tab.Put(s, r, n).Valid(hash)
            && tab.Put(s, r, n).Contents() == tab.Contents()[r.key := r.val]
            && r.key in tab.Contents() && tab.Contents()[r.key] == tab.rows[s].val
  {
    PutKeeps(tab, hash, r, Slot(hash(r.key), t, |tab.hits|), t, n);
  }

  /** The rows in use, in slot order. */
  ghost function Live<V>(rows: seq<Row<V>>, hits: seq<nat>): seq<Row<V>>
    requires |rows| == |hits|
  {
    if rows == [] then []
    else
      var last := |rows| - 1;
      Live(rows[..last], hits[..last]) + if hits[last] != 0 then [rows[last]] else []
  }

  ghost predicate DistinctKeys<V>(rows: seq<Row<V>>) {
    forall i, j :: 0 <= i < j < |rows| ==> rows[i].key != rows[j].key
  }

  lemma DistinctAppend<V>(rows: seq<Row<V>>, r: Row<V>)
    requires DistinctKeys(rows) && r.key !in KeysOf(rows)
    ensures DistinctKeys(rows + [r])
  {
    assert forall i :: 0 <= i < |rows| ==> rows[i].key in KeysOf(rows);
  }

  lemma AppendNew<V>(f: (V, V) -> V, rows: seq<Row<V>>, r: Row<V>)
    requires DistinctKeys(rows) && r.key !in Fold(f, map[], rows)
    ensures DistinctKeys(rows + [r]) && Fold(f, map[], rows + [r]) == Fold(f, map[], rows)[r.key := r.val]
  {
    FoldMeaning(f, rows);
    DistinctAppend(rows, r);
    FoldAppend(f, map[], rows, r);
  }

  lemma UniquePrefix<V>(rows: seq<Row<V>>, hits: seq<nat>)
    requires |rows| == |hits| > 0 && Table(rows, hits).Unique()
    ensures var last := |rows| - 1;
            && Table(rows[..last], hits[..last]).Unique()
            && (hits[last] != 0 ==> OnlyAt(rows[..last], hits[..last], rows[last].key, last))
  {
    var last := |rows| - 1;
    assert forall i: nat :: i <= last ==> Table(rows, hits).Used(i) == (hits[i] != 0);
    assert forall i: nat :: i < last ==> Table(rows[..last], hits[..last]).Used(i) == (hits[i] != 0);
  }

  /** The rows in use are the contents, one row per key. */
  lemma {:induction false} LiveIsContents<V>(f: (V, V) -> V, rows: seq<Row<V>>, hits: seq<nat>)
    requires |rows| == |hits| && Table(rows, hits).Unique()
    ensures DistinctKeys(Live(rows, hits)) && |Live(rows, hits)| == Count(hits)
    ensures Fold(f, map[], Live(rows, hits)) == Holdings(rows, hits)
  {
    if rows != [] {
      var last := |rows| - 1;
      var rows0, hits0 := rows[..last], hits[..last];
      UniquePrefix(rows, hits);
      LiveIsContents(f, rows0, hits0);
      if hits[last] != 0 {
        HoldingsAt(rows0, hits0, rows[last].key, last);
        AppendNew(f, Live(rows0, hits0), rows[last]);
      } else {
        assert Live(rows, hits) == Live(rows0, hits0);
      }
    }
  }

  lemma {:induction false} HoldsUsed<V>(rows: seq<Row<V>>, hits: seq<nat>, i: nat)
    requires |rows| == |hits| && i < |rows| && hits[i] != 0
    ensures rows[i].key in Holdings(rows, hits)
  {
    var last := |rows| - 1;
    if i < last {
      HoldsUsed(rows[..last], hits[..last], i);
    }
  }

  lemma {:induction false} CountAtMost(hits: seq<nat>)
    ensures Count(hits) <= |hits|
  {
    if hits != [] {
      CountAtMost(hits[..|hits| - 1]);
    }
  }

  /** One more slot of the old table is rehashed into a free slot of the new one. */
  lemma RehashStep<V>(tab: Table<V>, hash: Key -> nat, rows0: seq<Row<V>>, hits0: seq<nat>, i: nat, t: nat)
    requires |rows0| == |hits0| && i < |rows0| && hits0[i] != 0 && Table(rows0, hits0).Unique()
    requires tab.Valid(hash) && tab.Contents() == Holdings(rows0[..i], hits0[..i])
    requires Count(tab.hits) == Count(hits0[..i])
    requires tab.Crowded(hash(rows0[i].key), t) && !tab.Used(Slot(hash(rows0[i].key), t, |tab.hits|))
    ensures var tab' := tab.Put(Slot(hash(rows0[i].key), t, |tab.hits|), rows0[i], hits0[i]);
            && tab'.Valid(hash)
            && tab'.Contents() == Holdings(rows0[..i + 1], hits0[..i + 1])
            && Count(tab'.hits) == Count(hits0[..i + 1])
  {
    var k, s := rows0[i].key, Slot(hash(rows0[i].key), t, |tab.hits|);
    NewKey(rows0, hits0, i);
    forall j | 0 <= j < |tab.rows| && tab.hits[j] != 0
      ensures tab.rows[j].key != k
    {
      HoldsUsed(tab.rows, tab.hits, j);
    }
    PutKeeps(tab, hash, rows0[i], s, t, hits0[i]);
    CountUpdate(tab.hits, s, hits0[i]);
    assert rows0[..i + 1][..i] == rows0[..i] && hits0[..i + 1][..i] == hits0[..i];
  }

  lemma NewKey<V>(rows0: seq<Row<V>>, hits0: seq<nat>, i: nat)
    requires |rows0| == |hits0| && i < |rows0| && hits0[i] != 0 && Table(rows0, hits0).Unique()
    ensures rows0[i].key !in Holdings(rows0[..i], hits0[..i])
  {
    assert Table(rows0, hits0).Used(i);
    assert forall j: nat :: j < i && hits0[j] != 0 ==> Table(rows0, hits0).Used(j);
    HoldingsAt(rows0[..i], hits0[..i], rows0[i].key, i);
  }

  lemma RehashSkip<V>(rows0: seq<Row<V>>, hits0: seq<nat>, i: nat)
    requires |rows0| == |hits0| && i < |rows0| && hits0[i] == 0
    ensures Holdings(rows0[..i + 1], hits0[..i + 1]) == Holdings(rows0[..i], hits0[..i])
    ensures Count(hits0[..i + 1]) == Count(hits0[..i])
  {
    assert rows0[..i + 1][..i] == rows0[..i] && hits0[..i + 1][..i] == hits0[..i];
  }

  /** A table without hits is valid and holds nothing. */
  lemma {:induction false} EmptyTable<V>(rows: seq<Row<V>>, hits: seq<nat>)
    requires |rows| == |hits| && forall i :: 0 <= i < |hits| ==> hits[i] == 0
    ensures Holdings(rows, hits) == map[] && Count(hits) == 0 && Live(rows, hits) == []
  {
    if rows != [] {
      EmptyTable(rows[..|rows| - 1], hits[..|rows| - 1]);
    }
  }

  lemma NothingUsed<V>(tab: Table<V>, hash: Key -> nat)
    requires tab.Shaped() && forall i :: 0 <= i < |tab.hits| ==> tab.hits[i] == 0
    ensures tab.Valid(hash)
  {
  }

  lemma NothingRehashed<V>(rows0: seq<Row<V>>, hits0: seq<nat>)
    requires |rows0| == |hits0|
    ensures Holdings(rows0[..0], hits0[..0]) == map[] && Count(hits0[..0]) == 0
  {
  }

  /** There are as many keys as slots in use. */
  lemma {:induction false} HoldingsSize<V>(rows: seq<Row<V>>, hits: seq<nat>)
    requires |rows| == |hits| && Table(rows, hits).Unique()
    ensures |Holdings(rows, hits)| == Count(hits)
  {
    if rows != [] {
      var last := |rows| - 1;
      UniquePrefix(rows, hits);
      HoldingsSize(rows[..last], hits[..last]);
      if hits[last] != 0 {
        HoldingsAt(rows[..last], hits[..last], rows[last].key, last);
      }
    }
  }

  lemma LivePrefix<V>(rows: seq<Row<V>>, hits: seq<nat>, i: nat)
    requires |rows| == |hits| && i <= |rows|
    ensures Live(rows[..0], hits[..0]) == []
    ensures i < |rows| ==>
              Live(rows[..i + 1], hits[..i + 1]) == Live(rows[..i], hits[..i]) + if hits[i] != 0 then [rows[i]] else []
    ensures i == |rows| ==> rows[..i] == rows && hits[..i] == hits
  {
    if i < |rows| {
      assert rows[..i + 1][..i] == rows[..i] && hits[..i + 1][..i] == hits[..i];
    }
  }
}
