/**
 The combining frame (exec/combiner.go): a power-of-two hash table over the
 front of a data frame whose tail is scratch space for incoming rows. It
 refines the plain map from keys to combined values.
 */
module CombiningFrame {
  import opened Rows
  import opened Probing
  import opened HashTable

  /** The largest combining hash table that is maintained. */
  const HASH_MAX_CAPACITY: nat := 0x2000_0000

  /** The number of keys a table of n slots may hold: a load factor of 0.7. */
  function Threshold(n: nat): (keys: nat)
    ensures 10 * keys <= 7 * n < 10 * (keys + 1)
  {
    7 * n / 10
  }

  class CombiningFrame<V> {
    const combiner: (V, V) -> V
    const hash: Key -> nat
    const zero: Row<V>
    const nscratch: nat
    // data holds the table in data[..cap] and the scratch rows in data[cap..].
    var data: array<Row<V>>
    var hits: array<nat>
    var threshold: nat
    var len: nat
    var cap: nat

    ghost predicate Shaped()
      reads this
    {
      && PowerOfTwo(cap) && cap <= HASH_MAX_CAPACITY && nscratch > 0
      && data.Length == cap + nscratch && hits.Length == cap
      && threshold == Threshold(cap)
    }

    ghost function Tab(): Table<V>
      requires Shaped()
      reads this, data, hits
    {
      Table(data[..cap], hits[..])
    }

    /** The table is in order; it may have outgrown its threshold by one. */
    ghost predicate InOrder()
      reads this, data, hits
    {
      Shaped() && Tab().Valid(hash) && Count(hits[..]) == len && len <= threshold + 1
    }

    ghost predicate Valid()
      reads this, data, hits
    {
      InOrder() && len <= threshold
    }

    /** The combined value of each key. */
    ghost function Contents(): map<Key, V>
      requires Shaped()
      reads this, data, hits
    {
      Tab().Contents()
    }

    constructor (combiner: (V, V) -> V, hash: Key -> nat, zero: Row<V>, n: nat, nscratch: nat)
      requires PowerOfTwo(n) && n <= HASH_MAX_CAPACITY && nscratch > 0
      ensures Valid() && fresh(data) && fresh(hits)
      ensures Contents() == map[] && cap == n && this.nscratch == nscratch
      ensures this.combiner == combiner && this.hash == hash
    {
      this.combiner, this.hash, this.zero, this.nscratch := combiner, hash, zero, nscratch;
      data := new Row<V>[n + nscratch](_ => zero);
      hits := new nat[n](_ => 0);
      threshold, len, cap := Threshold(n), 0, n;
      new;
      EmptyTable(data[..cap], hits[..]);
    }

    /** The slot where the key is, or where it would go. */
    method Probe(key: Key) returns (idx: nat, ghost t: nat)
      requires Valid()
      ensures idx < cap && idx == Slot(hash(key), t, cap) && Missed(Tab(), hash(key), key, t)
      ensures hits[idx] == 0 || data[idx].key == key
    {
      hide Holdings, Count, PowerOfTwo, Slot, Missed;
      RoomLeft(cap, len);
      var h := hash(key);
      idx, t := h % cap, 0;
      NextSlot(h, 0, cap);
      ProbeLimit(Tab(), h, key);
      var try := 1;
      while hits[idx] != 0 && data[idx].key != key
        invariant try == t + 1 && t < cap
        invariant idx == Slot(h, t, cap)
        invariant Missed(Tab(), h, key, t)
        decreases cap - t
      {
        MissedNext(Tab(), h, key, t);
        NextSlot(h, t, cap);
        idx := (idx + try) % cap;
        try := try + 1;
        t := t + 1;
      }
    }

    /** A free slot for a key that is known to be new: there is no need to compare keys. */
    method ProbeFree(key: Key) returns (idx: nat, ghost t: nat)
      requires Shaped() && Tab().Valid(hash) && Count(hits[..]) < cap
      ensures idx < cap && idx == Slot(hash(key), t, cap) && Tab().Crowded(hash(key), t)
      ensures hits[idx] == 0
    {
      hide Holdings, Count, PowerOfTwo, Slot;
      var h := hash(key);
      idx, t := h % cap, 0;
      NextSlot(h, 0, cap);
      NotCrowded(Tab(), h);
      var try := 1;
      while hits[idx] != 0
        invariant try == t + 1 && t < cap
        invariant idx == Slot(h, t, cap)
        invariant Tab().Crowded(h, t)
        decreases cap - t
      {
        assert Tab().Used(idx);
        NextSlot(h, t, cap);
        idx := (idx + try) % cap;
        try := try + 1;
        t := t + 1;
      }
    }

    /** Moves one row, with its hits, into the table. */
    method Place(r: Row<V>, n: nat, ghost rows0: seq<Row<V>>, ghost hits0: seq<nat>, ghost i: nat)
      requires Shaped() && Tab().Valid(hash) && |rows0| == |hits0| < cap
      requires i < |rows0| && rows0[i] == r && hits0[i] == n && n != 0 && Table(rows0, hits0).Unique()
      requires Contents() == Holdings(rows0[..i], hits0[..i]) && Count(hits[..]) == Count(hits0[..i])
      modifies data, hits
      ensures Shaped() && Tab().Valid(hash)
      ensures Contents() == Holdings(rows0[..i + 1], hits0[..i + 1]) && Count(hits[..]) == Count(hits0[..i + 1])
      ensures data[cap..] == old(data[cap..])
    {
      CountAtMost(hits0[..i]);
      var idx, t := ProbeFree(r.key);
      ghost var tab := Tab();
      RehashStep(tab, hash, rows0, hits0, i, t);
      hits[idx] := n;
      data[idx] := r;
      assert Tab() == tab.Put(idx, r, n);
    }

    /** Rehashes all rows of an old table into this one, which is empty and large enough. */
    method Rehash(data0: array<Row<V>>, hits0: array<nat>)
      requires Shaped() && Tab().Valid(hash) && Contents() == map[] && Count(hits[..]) == 0
      requires data0 != data && hits0 != hits && hits0.Length <= data0.Length && hits0.Length < cap
      requires Table(data0[..hits0.Length], hits0[..]).Unique()
      modifies data, hits
      ensures Shaped() && Tab().Valid(hash)
      ensures Contents() == Holdings(data0[..hits0.Length], hits0[..]) && Count(hits[..]) == Count(hits0[..])
      ensures data[cap..] == old(data[cap..])
    {
      hide Holdings, Count, PowerOfTwo, Threshold;
      ghost var rows := data0[..hits0.Length];
      NothingRehashed(rows, hits0[..]);
      for i := 0 to hits0.Length
        invariant Shaped() && Tab().Valid(hash)
        invariant Contents() == Holdings(rows[..i], hits0[..i]) && Count(hits[..]) == Count(hits0[..i])
        invariant data[cap..] == old(data[cap..])
      {
        assert hits0[..][..i] == hits0[..i] && hits0[..][..i + 1] == hits0[..i + 1];
        if hits0[i] == 0 {
          RehashSkip(rows, hits0[..], i);
          continue;
        }
        Place(data0[i], hits0[i], rows, hits0[..], i);
      }
      assert rows[..hits0.Length] == rows && hits0[..hits0.Length] == hits0[..];
    }

    /** Doubles the table and rehashes all the keys. The scratch rows move along. */
    method Grow()
      requires InOrder() && 2 * cap <= HASH_MAX_CAPACITY && len == threshold + 1
      modifies this
      ensures Valid() && fresh(data) && fresh(hits) && cap == 2 * old(cap) && len == old(len)
      ensures Contents() == old(Contents()) && data[cap..] == old(data[cap..])
    {
      hide Holdings, Count, PowerOfTwo, Slot, Threshold, Table.Unique, Table.Findable, Table.Crowded;
      var data0, hits0, cap0 := data, hits, cap;
      ghost var rows, counts := data[..cap], hits[..];
      RoomLeft(cap, threshold);
      DoublePower(cap);
      data := new Row<V>[2 * cap0 + nscratch](_ => zero);
      hits := new nat[2 * cap0](_ => 0);
      cap := 2 * cap0;
      threshold := Threshold(cap);
      forall j | 0 <= j < nscratch {
        data[cap + j] := data0[cap0 + j];
      }
      assert data[cap..] == data0[cap0..];
      EmptyTable(data[..cap], hits[..]);
      NothingUsed(Tab(), hash);
      assert data0[..cap0] == rows && hits0[..] == counts;
      Rehash(data0, hits0);
      assert data0[..cap0] == rows && hits0[..] == counts;
    }

    /** Accounts for a new key, growing the table when it passes its threshold; fails when it cannot grow. */
    method Added() returns (ok: bool)
      requires Shaped() && Tab().Valid(hash) && Count(hits[..]) == len + 1 && len <= threshold
      modifies this
      ensures (data == old(data) || fresh(data)) && (hits == old(hits) || fresh(hits))
      ensures InOrder() && len == old(len) + 1 && Contents() == old(Contents()) && data[cap..] == old(data[cap..])
      ensures if ok then Valid() else cap == HASH_MAX_CAPACITY && len > threshold
    {
      hide Holdings, Count, PowerOfTwo, Slot, Threshold;
      len := len + 1;
      if len <= threshold {
        return true;
      }
      if cap == HASH_MAX_CAPACITY {
        return false;
      }
      RoomToGrow(cap);
      Grow();
      return true;
    }

    /** Combines the i'th scratch row into the table. */
    method CombineRow(i: nat) returns (ok: bool)
      requires Valid() && i < nscratch
      modifies this, data, hits
      ensures (data == old(data) || fresh(data)) && (hits == old(hits) || fresh(hits))
      ensures InOrder() && Contents() == Upsert(combiner, old(Contents()), old(data[cap + i]))
      ensures data[cap + i + 1..] == old(data[cap + i + 1..])
      ensures if ok then Valid() else cap == HASH_MAX_CAPACITY && len > threshold
    {
      hide Holdings, Count, PowerOfTwo, Slot, Threshold, Missed;
      ghost var scratch := data[cap..];
      assert data[cap + i + 1..] == scratch[i + 1..];
      var idx, t := Probe(data[cap + i].key);
      if hits[idx] == 0 {
        ok := Insert(i, idx, t);
      } else {
        Update(i, idx, t);
        assert data[cap + i + 1..] == data[cap..][i + 1..];
        ok := true;
      }
    }

    /** The scratch row has a new key: it trades places with the free slot. */
    method Insert(i: nat, idx: nat, ghost t: nat) returns (ok: bool)
      requires Valid() && i < nscratch && idx < cap && hits[idx] == 0
      requires var k := data[cap + i].key; idx == Slot(hash(k), t, cap) && Missed(Tab(), hash(k), k, t)
      modifies this, data, hits
      ensures (data == old(data) || fresh(data)) && (hits == old(hits) || fresh(hits))
      ensures InOrder() && Contents() == Upsert(combiner, old(Contents()), old(data[cap + i]))
      ensures data[cap + i + 1..] == old(data[cap + i + 1..])
      ensures if ok then Valid() else cap == HASH_MAX_CAPACITY && len > threshold
    {
      hide Holdings, Count, PowerOfTwo, Slot, Threshold, Missed;
      ghost var tab, r, scratch := Tab(), data[cap + i], data[cap + i + 1..];
      InsertKeeps(tab, hash, r, t, 1);
      CountUpdate(tab.hits, idx, 1);
      hits[idx] := hits[idx] + 1;
      data[idx], data[cap + i] := data[cap + i], data[idx];
      assert Tab() == tab.Put(idx, r, 1);
      assert data[cap..][i + 1..] == scratch;
      ok := Added();
      assert data[cap + i + 1..] == data[cap..][i + 1..];
    }

    /** The key of the scratch row is in the slot: its value is combined into the slot. */
    method Update(i: nat, idx: nat, ghost t: nat)
      requires Valid() && i < nscratch && idx < cap && hits[idx] != 0 && data[idx].key == data[cap + i].key
      requires var k := data[cap + i].key; idx == Slot(hash(k), t, cap) && Missed(Tab(), hash(k), k, t)
      modifies data, hits
      ensures Valid() && Contents() == Upsert(combiner, old(Contents()), old(data[cap + i]))
      ensures data[cap..] == old(data[cap..])
    {
      hide Holdings, Count, PowerOfTwo, Slot, Threshold, Missed;
      ghost var tab, r := Tab(), data[cap + i];
      var v := combiner(data[idx].val, data[cap + i].val);
      Hit(tab, hash, r.key, t);
      UpdateKeeps(tab, hash, Row(r.key, v), t, hits[idx] + 1);
      CountUpdate(tab.hits, idx, hits[idx] + 1);
      data[idx] := Row(data[idx].key, v);
      hits[idx] := hits[idx] + 1;
      assert Tab() == tab.Put(idx, Row(r.key, v), hits[idx]);
    }

    /** Combines the first n scratch rows; a growth in the middle carries the remaining ones along. */
    method CombineScratch(n: nat) returns (ok: bool, ghost taken: nat)
      requires Valid() && n <= nscratch
      modifies this, data, hits
      ensures (data == old(data) || fresh(data)) && (hits == old(hits) || fresh(hits))
      ensures InOrder() && taken <= n && (ok ==> taken == n)
      ensures Contents() == Fold(combiner, old(Contents()), old(data[cap..])[..taken])
      ensures if ok then Valid() else cap == HASH_MAX_CAPACITY && len > threshold
    {
      hide Holdings, Count, PowerOfTwo, Slot, Threshold, Upsert, Fold;
      ghost var scratch, m := data[cap..], Contents();
      taken := 0;
      FoldPrefix(combiner, m, scratch, 0);
      for i := 0 to n
        invariant (data == old(data) || fresh(data)) && (hits == old(hits) || fresh(hits))
        invariant Valid() && taken == i && Contents() == Fold(combiner, m, scratch[..i])
        invariant data[cap + i..] == scratch[i..]
      {
        assert data[cap + i] == data[cap + i..][0] && data[cap + i + 1..] == data[cap + i..][1..];
        FoldPrefix(combiner, m, scratch, i);
        ok := CombineRow(i);
        taken := i + 1;
        if !ok {
          return;
        }
      }
      ok := true;
    }

    /** Fills the scratch space from the front. */
    method FillScratch(rows: seq<Row<V>>)
      requires Valid() && |rows| <= nscratch
      modifies data
      ensures Valid() && Contents() == old(Contents()) && data[cap..][..|rows|] == rows
    {
      hide Holdings, Count, PowerOfTwo, Slot, Threshold;
      ghost var table, counts := data[..cap], hits[..];
      forall j | 0 <= j < |rows| {
        data[cap + j] := rows[j];
      }
      assert data[..cap] == table && hits[..] == counts;
    }

    /**
     Combines the rows of a frame, a scratch batch at a time. The table then
     holds the fold of everything combined so far; combining fails exactly
     when there are more keys than the largest table may hold.
     */
    method Combine(rows: seq<Row<V>>) returns (ok: bool)
      requires Valid()
      modifies this, data, hits
      ensures (data == old(data) || fresh(data)) && (hits == old(hits) || fresh(hits))
      ensures ok ==> Valid() && Contents() == Fold(combiner, old(Contents()), rows) && Len() == |Contents()|
      ensures ok <==> |Fold(combiner, old(Contents()), rows)| <= Threshold(HASH_MAX_CAPACITY)
    {
      hide Holdings, Count, PowerOfTwo, Slot, Fold, Threshold;
      ghost var m := Contents();
      var off := 0;
      FoldPrefix(combiner, m, rows, 0);
      ok := true;
      while off < |rows|
        invariant off <= |rows| && ok
        invariant (data == old(data) || fresh(data)) && (hits == old(hits) || fresh(hits))
        invariant Valid() && Contents() == Fold(combiner, m, rows[..off])
      {
        var n := if |rows| - off < nscratch then |rows| - off else nscratch;
        ok, off := CombineChunk(rows, off, n, m);
        if !ok {
          return;
        }
      }
      FoldChunk(combiner, m, rows, |rows|, |rows|);
      Fits(Tab(), hash, len);
    }

    /** One batch of Combine. */
    method CombineChunk(rows: seq<Row<V>>, off: nat, n: nat, ghost m: map<Key, V>) returns (ok: bool, off': nat)
      requires off + n <= |rows| && n <= nscratch
      requires Valid() && Contents() == Fold(combiner, m, rows[..off])
      modifies this, data, hits
      ensures (data == old(data) || fresh(data)) && (hits == old(hits) || fresh(hits))
      ensures ok ==> off' == off + n && Valid() && Contents() == Fold(combiner, m, rows[..off'])
      ensures !ok ==> |Fold(combiner, m, rows)| > Threshold(HASH_MAX_CAPACITY)
    {
      hide Holdings, Count, PowerOfTwo, Slot, Fold, Threshold, Table.Unique, Table.Findable, Table.Crowded;
      FillScratch(rows[off..off + n]);
      ghost var scratch, taken := data[cap..], 0;
      ok, taken := CombineScratch(n);
      SliceChunk(scratch, rows, off, n, taken);
      FoldChunk(combiner, m, rows, off, off + taken);
      if !ok {
        TooMany(Tab(), hash, len, combiner, m, rows, off + taken);
      }
      off' := off + n;
    }

    /** The number of keys in the frame. */
    function Len(): nat
      reads this`len
    {
      len
    }

    function Cap(): nat
      reads this`cap
    {
      cap
    }

    /**
     Compacts all rows to the front of the frame and returns them. The rows
     hold each key of the table once, with its combined value; the frame is
     empty afterwards.
     */
    method Compact() returns (rows: seq<Row<V>>)
      requires Valid()
      modifies this, data, hits
      ensures Valid() && Contents() == map[] && Len() == 0 && data == old(data) && hits == old(hits) && cap == old(cap)
      ensures DistinctKeys(rows) && Fold(combiner, map[], rows) == old(Contents()) && |rows| == old(Len())
    {
      hide Holdings, Count, PowerOfTwo, Slot, Fold, Threshold, Live;
      LiveIsContents(combiner, Tab().rows, Tab().hits);
      rows := Squeeze();
      len := 0;
      EmptyTable(data[..cap], hits[..]);
    }

    /** Moves the rows in use to the front, in place, and marks all slots as free. */
    method Squeeze() returns (rows: seq<Row<V>>)
      requires Shaped()
      modifies data, hits
      ensures rows == Live(old(data[..cap]), old(hits[..])) && forall k :: 0 <= k < cap ==> hits[k] == 0
    {
      hide Live, PowerOfTwo, Threshold;
      ghost var tab := Tab();
      var j := 0;
      LivePrefix(tab.rows, tab.hits, 0);
      for i := 0 to hits.Length
        invariant j <= i && data[..j] == Live(tab.rows[..i], tab.hits[..i])
        invariant forall k :: i <= k < cap ==> data[k] == tab.rows[k] && hits[k] == tab.hits[k]
        invariant forall k :: 0 <= k < i ==> hits[k] == 0
      {
        LivePrefix(tab.rows, tab.hits, i);
        if hits[i] == 0 {
          continue;
        }
        data[i], data[j] := data[j], data[i];
        hits[i] := 0;
        j := j + 1;
        assert data[..j] == data[..j - 1] + [tab.rows[i]];
      }
      rows := data[..j];
      LivePrefix(tab.rows, tab.hits, |tab.rows|);
    }
  }

  lemma TooMany<V>(tab: Table<V>, hash: Key -> nat, len: nat, f: (V, V) -> V, m: map<Key, V>, rows: seq<Row<V>>, j: nat)
    requires tab.Valid(hash) && Count(tab.hits) == len && j <= |rows| && tab.Contents() == Fold(f, m, rows[..j])
    ensures |Fold(f, m, rows)| >= len
  {
    HoldingsSize(tab.rows, tab.hits);
    FoldChunk(f, m, rows, j, j);
  }

  lemma SliceChunk<T>(scratch: seq<T>, rows: seq<T>, off: nat, n: nat, taken: nat)
    requires off + n <= |rows| && taken <= n <= |scratch| && scratch[..n] == rows[off..off + n]
    ensures scratch[..taken] == rows[off..off + taken]
  {
    assert scratch[..taken] == scratch[..n][..taken];
  }

  /** The number of keys is the number of slots in use. */
  lemma Fits<V>(tab: Table<V>, hash: Key -> nat, len: nat)
    requires tab.Valid(hash) && Count(tab.hits) == len
    ensures |tab.Contents()| == len
    ensures |tab.hits| <= HASH_MAX_CAPACITY ==> Threshold(|tab.hits|) <= Threshold(HASH_MAX_CAPACITY)
  {
    HoldingsSize(tab.rows, tab.hits);
  }

  lemma Hit<V>(tab: Table<V>, hash: Key -> nat, k: Key, t: nat)
    requires tab.Shaped() && Missed(tab, hash(k), k, t)
    ensures tab.Crowded(hash(k), t)
  {
  }

  lemma {:induction false} PowerProduct(a: nat, b: nat)
    requires PowerOfTwo(a) && PowerOfTwo(b)
    ensures PowerOfTwo(a * b)
  {
    if a > 1 {
      PowerProduct(a / 2, b);
      assert a * b == 2 * (a / 2 * b);
      DoublePower(a / 2 * b);
    }
  }

  lemma MaxIsPower()
    ensures PowerOfTwo(HASH_MAX_CAPACITY)
  {
    assert PowerOfTwo(16) by {
      assert PowerOfTwo(4);
    }
    PowerProduct(16, 16);
    PowerProduct(256, 256);
    PowerProduct(0x1_0000, 256);
    PowerProduct(0x100_0000, 16);
    PowerProduct(0x1000_0000, 2);
  }

  /** Below the largest table there is always room to double. */
  lemma RoomToGrow(n: nat)
    requires PowerOfTwo(n) && n <= HASH_MAX_CAPACITY && n != HASH_MAX_CAPACITY
    ensures 2 * n <= HASH_MAX_CAPACITY
  {
    MaxIsPower();
    PowersApart(n, HASH_MAX_CAPACITY);
  }

  lemma {:induction false} PowersApart(a: nat, b: nat)
    requires PowerOfTwo(a) && PowerOfTwo(b) && a < b
    ensures 2 * a <= b
  {
    if a > 1 {
      PowersApart(a / 2, b / 2);
    }
  }

  /** A table within its threshold has room for one more key, also after that key was added. */
  lemma RoomLeft(n: nat, len: nat)
    requires PowerOfTwo(n) && len <= Threshold(n)
    ensures len < n && len + 1 <= Threshold(2 * n)
  {
  }

  lemma FoldPrefix<V>(f: (V, V) -> V, m: map<Key, V>, rows: seq<Row<V>>, i: nat)
    requires i <= |rows|
    ensures Fold(f, m, rows[..0]) == m
    ensures i < |rows| ==> Fold(f, m, rows[..i + 1]) == Upsert(f, Fold(f, m, rows[..i]), rows[i])
  {
    if i < |rows| {
      assert rows[..i + 1] == rows[..i] + [rows[i]];
      FoldAppend(f, m, rows[..i], rows[i]);
    }
  }

  /** Folding a chunk on top of what came before it. */
  lemma FoldChunk<V>(f: (V, V) -> V, m: map<Key, V>, rows: seq<Row<V>>, i: nat, j: nat)
    requires i <= j <= |rows|
    ensures Fold(f, m, rows[..j]) == Fold(f, Fold(f, m, rows[..i]), rows[i..j])
    ensures |Fold(f, m, rows[..j])| <= |Fold(f, m, rows)|
    ensures j == |rows| ==> rows[..j] == rows
  {
    assert rows[..j] == rows[..i] + rows[i..j];
    FoldConcat(f, m, rows[..i], rows[i..j]);
    assert rows == rows[..j] + rows[j..];
    FoldConcat(f, m, rows[..j], rows[j..]);
    FoldKeepsKeys(f, Fold(f, m, rows[..j]), rows[j..]);
  }
}
