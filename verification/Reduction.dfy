/**
 Merging combined values: what reductions of parts of the data amount to,
 for an associative and commutative combiner.
 */
module Reduction {
  import opened Rows
  import opened Monoids

  ghost predicate AssociativeCommutative<V(!new)>(f: (V, V) -> V) {
    && (forall a, b :: f(a, b) == f(b, a))
    && (forall a, b, c :: f(f(a, b), c) == f(a, f(b, c)))
  }

  /** Combines the values of keys that are in both. */
  function Merge<V>(f: (V, V) -> V, a: map<Key, V>, b: map<Key, V>): map<Key, V> {
    map k | k in a.Keys + b.Keys ::
      if k in a && k in b then f(a[k], b[k]) else if k in a then a[k] else b[k]
  }

  ghost function Merging<V(!new)>(f: (V, V) -> V): (map<Key, V>, map<Key, V>) -> map<Key, V> {
    (a, b) => Merge(f, a, b)
  }

  lemma MergeIsMonoid<V(!new)>(f: (V, V) -> V)
    requires AssociativeCommutative(f)
    ensures CommutativeMonoid(Merging(f), map[])
  {
    forall a: map<Key, V>
      ensures Merging(f)(map[], a) == a
    {
      assert Merge(f, map[], a) == a;
    }
    forall a: map<Key, V>, b: map<Key, V>
      ensures Merging(f)(a, b) == Merging(f)(b, a)
    {
      assert Merge(f, a, b) == Merge(f, b, a);
    }
    forall a: map<Key, V>, b: map<Key, V>, c: map<Key, V>
      ensures Merging(f)(Merging(f)(a, b), c) == Merging(f)(a, Merging(f)(b, c))
    {
      MergeAssociates(f, a, b, c);
    }
  }

  lemma MergeAssociates<V(!new)>(f: (V, V) -> V, a: map<Key, V>, b: map<Key, V>, c: map<Key, V>)
    requires AssociativeCommutative(f)
    ensures Merge(f, Merge(f, a, b), c) == Merge(f, a, Merge(f, b, c))
  {
    var l, r := Merge(f, Merge(f, a, b), c), Merge(f, a, Merge(f, b, c));
    forall k | k in l
      ensures l[k] == r[k]
    {
    }
  }

  /** Combining rows into m is the same as merging m with the rows combined on their own. */
  lemma {:induction false} FoldIsMerge<V(!new)>(f: (V, V) -> V, m: map<Key, V>, rows: seq<Row<V>>)
    requires AssociativeCommutative(f)
    ensures Fold(f, m, rows) == Merge(f, m, Fold(f, map[], rows))
  {
    if rows == [] {
      assert Merge(f, m, map[]) == m;
    } else {
      var init, last := rows[..|rows| - 1], rows[|rows| - 1];
      FoldIsMerge(f, m, init);
      UpsertMerge(f, m, Fold(f, map[], init), last);
    }
  }

  lemma UpsertMerge<V(!new)>(f: (V, V) -> V, m: map<Key, V>, n: map<Key, V>, r: Row<V>)
    requires AssociativeCommutative(f)
    ensures Upsert(f, Merge(f, m, n), r) == Merge(f, m, Upsert(f, n, r))
  {
    var a, b := Upsert(f, Merge(f, m, n), r), Merge(f, m, Upsert(f, n, r));
    assert a.Keys == b.Keys;
    forall k | k in a
      ensures a[k] == b[k]
    {
    }
  }

  /** The reduction of a set of runs, each combined on its own and then merged. */
  ghost function Reduced<V(!new)>(f: (V, V) -> V, runs: seq<seq<Row<V>>>): map<Key, V> {
    Total(Merging(f), map[], run => Fold(f, map[], run), runs)
  }

  /** Where the data is cut into runs does not matter. */
  lemma ReducedAppend<V(!new)>(f: (V, V) -> V, runs: seq<seq<Row<V>>>, rows: seq<Row<V>>)
    requires AssociativeCommutative(f)
    ensures Reduced(f, runs + [rows]) == Fold(f, Reduced(f, runs), rows)
  {
    TotalAppend(Merging(f), map[], run => Fold(f, map[], run), runs, rows);
    FoldIsMerge(f, Reduced(f, runs), rows);
  }

  /** Neither does the order of the runs. */
  lemma ReducedPermuted<V(!new)>(f: (V, V) -> V, a: seq<seq<Row<V>>>, b: seq<seq<Row<V>>>)
    requires AssociativeCommutative(f) && multiset(a) == multiset(b)
    ensures Reduced(f, a) == Reduced(f, b)
  {
    MergeIsMonoid(f);
    TotalPermuted(Merging(f), map[], run => Fold(f, map[], run), a, b);
  }

  function Flatten<T>(parts: seq<seq<T>>): seq<T> {
    if parts == [] then [] else Flatten(parts[..|parts| - 1]) + parts[|parts| - 1]
  }

  lemma {:induction false} FlattenFirst<T>(parts: seq<seq<T>>)
    requires parts != []
    ensures Flatten(parts) == parts[0] + Flatten(parts[1..])
  {
    var n := |parts| - 1;
    if n > 0 {
      FlattenFirst(parts[..n]);
      assert parts[..n][1..] == parts[1..][..n - 1];
    }
  }

  /** Reducing runs gives what folding all their rows gives. */
  lemma {:induction false} ReducedIsFold<V(!new)>(f: (V, V) -> V, runs: seq<seq<Row<V>>>)
    requires AssociativeCommutative(f)
    ensures Reduced(f, runs) == Fold(f, map[], Flatten(runs))
  {
    if runs != [] {
      var init, last := runs[..|runs| - 1], runs[|runs| - 1];
      assert runs == init + [last];
      ReducedIsFold(f, init);
      ReducedAppend(f, init, last);
      FoldConcat(f, map[], Flatten(init), last);
    }
  }

  ghost predicate StrictlySorted<V>(rows: seq<Row<V>>) {
    forall i, j :: 0 <= i < j < |rows| ==> rows[i].key < rows[j].key
  }
}
