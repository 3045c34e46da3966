/**
 Rows, and what it means to combine them by key.

 A row is a key and a value. Only the order and the equality of keys matter,
 so the key columns of a frame are represented by one integer.
 */
module Rows {

  type Key = int

  datatype Row<V> = Row(key: Key, val: V)

  /** Combining one row into the values held per key: copied when there is none, combined otherwise. */
  function Upsert<V>(f: (V, V) -> V, m: map<Key, V>, r: Row<V>): map<Key, V> {
    m[r.key := if r.key in m then f(m[r.key], r.val) else r.val]
  }

  /** Combining rows one by one, in order. */
  function Fold<V>(f: (V, V) -> V, m: map<Key, V>, rows: seq<Row<V>>): map<Key, V> {
    if rows == [] then m else Upsert(f, Fold(f, m, rows[..|rows| - 1]), rows[|rows| - 1])
  }

  lemma {:induction false} FoldConcat<V>(f: (V, V) -> V, m: map<Key, V>, a: seq<Row<V>>, b: seq<Row<V>>)
    ensures Fold(f, m, a + b) == Fold(f, Fold(f, m, a), b)
  {
    if b == [] {
      assert a + b == a;
    } else {
      var b' := b[..|b| - 1];
      assert (a + b)[..|a + b| - 1] == a + b';
      FoldConcat(f, m, a, b');
    }
  }

  lemma FoldAppend<V>(f: (V, V) -> V, m: map<Key, V>, rows: seq<Row<V>>, r: Row<V>)
    ensures Fold(f, m, rows + [r]) == Upsert(f, Fold(f, m, rows), r)
  {
    assert (rows + [r])[..|rows|] == rows;
  }

  // The reference: for each key, the values with that key, reduced from the left.

  function KeysOf<V>(rows: seq<Row<V>>): set<Key> {
    set i | 0 <= i < |rows| :: rows[i].key
  }

  /** The values recorded for a key, in order of arrival. */
  function ValuesOf<V>(rows: seq<Row<V>>, k: Key): seq<V> {
    if rows == [] then []
    else
      var last := rows[|rows| - 1];
      ValuesOf(rows[..|rows| - 1], k) + if last.key == k then [last.val] else []
  }

  /** Left reduction of a nonempty sequence. */
  function Reduce<V>(f: (V, V) -> V, vs: seq<V>): V
    requires vs != []
  {
    if |vs| == 1 then vs[0] else f(Reduce(f, vs[..|vs| - 1]), vs[|vs| - 1])
  }

  lemma KeysOfAppend<V>(rows: seq<Row<V>>, r: Row<V>)
    ensures KeysOf(rows + [r]) == KeysOf(rows) + {r.key}
  {
    var all := rows + [r];
    forall k | k in KeysOf(rows) + {r.key}
      ensures k in KeysOf(all)
    {
      if k == r.key {
        assert all[|rows|].key == k;
      } else {
        var i :| 0 <= i < |rows| && rows[i].key == k;
        assert all[i].key == k;
      }
    }
  }

  lemma ReduceAppend<V>(f: (V, V) -> V, vs: seq<V>, v: V)
    requires vs != []
    ensures Reduce(f, vs + [v]) == f(Reduce(f, vs), v)
  {
    assert (vs + [v])[..|vs|] == vs;
  }

  /** Folding rows gives each distinct key the left reduction of its values in arrival order. */
  lemma {:induction false} FoldMeaning<V>(f: (V, V) -> V, rows: seq<Row<V>>)
    ensures Fold(f, map[], rows).Keys == KeysOf(rows)
    ensures forall k :: k in KeysOf(rows) <==> ValuesOf(rows, k) != []
    ensures forall k :: k in KeysOf(rows) ==> Fold(f, map[], rows)[k] == Reduce(f, ValuesOf(rows, k))
  {
    if rows != [] {
      var init, last := rows[..|rows| - 1], rows[|rows| - 1];
      FoldMeaning(f, init);
      assert rows == init + [last];
      KeysOfAppend(init, last);
      assert forall k :: k != last.key ==> ValuesOf(rows, k) == ValuesOf(init, k);
      if last.key in KeysOf(init) {
        ReduceAppend(f, ValuesOf(init, last.key), last.val);
      }
    }
  }

  /** Combining more rows never loses a key. */
  lemma {:induction false} FoldKeepsKeys<V>(f: (V, V) -> V, m: map<Key, V>, rows: seq<Row<V>>)
    ensures m.Keys <= Fold(f, m, rows).Keys && |m| <= |Fold(f, m, rows)|
  {
    if rows != [] {
      var m' := Fold(f, m, rows[..|rows| - 1]);
      FoldKeepsKeys(f, m, rows[..|rows| - 1]);
      var k := rows[|rows| - 1].key;
      assert Fold(f, m, rows).Keys == m'.Keys + {k};
    }
  }
}
