/**
 Graphs of slices, and what their shards hold when every slice is evaluated
 on its own (slice.go).
 */
module SliceGraph {
  import opened Rows
  import opened Reduction
  import opened Shuffle

  datatype Option<+T> = None | Some(value: T)

  type Partitioner<!V> = (Row<V>, nat) -> nat

  /** A dependency; `partitioner` overrides the default one. */
  datatype Dep<!V> = Dep(slice: nat, shuffle: bool, partitioner: Option<Partitioner<V>>, expand: bool)

  /** A slice: reader computes a shard from its inputs. */
  datatype Slice<!V> = Slice(numShard: nat, deps: seq<Dep<V>>, reader: (nat, seq<seq<Row<V>>>) -> seq<Row<V>>,
                             materialize: bool)

  /** The slices of a program, each after the slices it depends on. */
  datatype Graph<!V> = Graph(slices: seq<Slice<V>>, hash: Row<V> -> nat) {

    ghost predicate WellFormed() {
      forall s: nat :: s < |slices| ==>
        && slices[s].numShard > 0
        && forall i: nat :: i < |slices[s].deps| ==> Fits(s, slices[s].deps[i])
    }

    /** Without a shuffle, shards correspond one to one. */
    ghost predicate Fits(s: nat, d: Dep<V>)
      requires s < |slices|
    {
      d.slice < s && (!d.shuffle ==> slices[d.slice].numShard == slices[s].numShard)
    }
  }

  /** A partitioner of one's own assigns every row to one of the partitions. */
  ghost predicate InRangeAlways<V(!new)>(p: Option<Partitioner<V>>) {
    p.Some? ==> forall r, n: nat :: n > 0 ==> p.value(r, n) < n
  }

  ghost predicate Assigns<V(!new)>(g: Graph<V>) {
    forall s: nat, i: nat :: s < |g.slices| && i < |g.slices[s].deps| ==> InRangeAlways(g.slices[s].deps[i].partitioner)
  }

  /** Rows are spread over the shards by their hash. */
  function DefaultPartitioner<V>(hash: Row<V> -> nat): Partitioner<V> {
    (r: Row<V>, n: nat) => if n == 0 then 0 else hash(r) % n
  }

  function PartitionerOf<V>(g: Graph<V>, p: Option<Partitioner<V>>): Partitioner<V> {
    match p
    case None => DefaultPartitioner(g.hash)
    case Some(f) => f
  }

  /** A partitioner for a given number of partitions. */
  function At<V>(p: Partitioner<V>, n: nat): Row<V> -> nat {
    (r: Row<V>) => p(r, n)
  }

  // Evaluation slice by slice.

  /** The rows of a shard of a slice. */
  ghost function Shard<V>(g: Graph<V>, s: nat, shard: nat): seq<Row<V>>
    requires g.WellFormed() && s < |g.slices|
    decreases s, 2, 0
  {
    g.slices[s].reader(shard, Inputs(g, s, shard, |g.slices[s].deps|))
  }

  /** What the first k dependencies give a shard. */
  ghost function Inputs<V>(g: Graph<V>, s: nat, shard: nat, k: nat): seq<seq<Row<V>>>
    requires g.WellFormed() && s < |g.slices| && k <= |g.slices[s].deps|
    decreases s, 1, k
  {
    if k == 0 then [] else Inputs(g, s, shard, k - 1) + Input(g, s, shard, k - 1)
  }

  /**
   One dependency: the corresponding shard, or, after a shuffle, the rows of
   all shards assigned to this one, merged or one by one.
   */
  ghost function Input<V>(g: Graph<V>, s: nat, shard: nat, i: nat): seq<seq<Row<V>>>
    requires g.WellFormed() && s < |g.slices| && i < |g.slices[s].deps|
    decreases s, 0, 0
  {
    var d, n := g.slices[s].deps[i], g.slices[s].numShard;
    assert g.Fits(s, d);
    if !d.shuffle then [Shard(g, d.slice, shard)]
    else
      var parts := Parts(g, d, s, shard);
      if d.expand then parts else [Flatten(parts)]
  }

  /** The rows of each shard of a shuffled dependency that are assigned to a shard of slice s. */
  ghost function Parts<V>(g: Graph<V>, d: Dep<V>, s: nat, shard: nat): seq<seq<Row<V>>>
    requires g.WellFormed() && d.slice < s < |g.slices|
    decreases d.slice, 3, 0
  {
    var n := g.slices[s].numShard;
    seq(g.slices[d.slice].numShard, j requires 0 <= j < g.slices[d.slice].numShard =>
          PartOf(At(PartitionerOf(g, d.partitioner), n), n, Shard(g, d.slice, j), shard))
  }

  // What a shuffle does, in terms of the partitioner or the hash alone.

  /** The rows that a function sends to p out of n, in order. */
  function SentTo<V>(rows: seq<Row<V>>, f: Partitioner<V>, n: nat, p: nat): seq<Row<V>> {
    if rows == [] then []
    else (if f(rows[0], n) == p then [rows[0]] else []) + SentTo(rows[1..], f, n, p)
  }

  /** The rows whose hash is p modulo n, in order. */
  function HashedTo<V>(rows: seq<Row<V>>, hash: Row<V> -> nat, n: nat, p: nat): seq<Row<V>>
    requires n > 0
  {
    if rows == [] then []
    else (if hash(rows[0]) % n == p then [rows[0]] else []) + HashedTo(rows[1..], hash, n, p)
  }

  ghost function SentParts<V>(g: Graph<V>, slice: nat, f: Partitioner<V>, n: nat, p: nat): seq<seq<Row<V>>>
    requires g.WellFormed() && slice < |g.slices|
  {
    seq(g.slices[slice].numShard, j requires 0 <= j < g.slices[slice].numShard => SentTo(Shard(g, slice, j), f, n, p))
  }

  ghost function HashedParts<V>(g: Graph<V>, slice: nat, n: nat, p: nat): seq<seq<Row<V>>>
    requires g.WellFormed() && slice < |g.slices| && n > 0
  {
    seq(g.slices[slice].numShard, j requires 0 <= j < g.slices[slice].numShard =>
          HashedTo(Shard(g, slice, j), g.hash, n, p))
  }

  lemma {:induction false} PartIsSent<V>(rows: seq<Row<V>>, f: Partitioner<V>, n: nat, p: nat)
    requires n > 1
    ensures PartOf(At(f, n), n, rows, p) == SentTo(rows, f, n, p)
  {
    hide PartOf;
    if rows == [] {
      PartOfNone(At(f, n), n, p);
    } else {
      PartIsSent(rows[1..], f, n, p);
      assert rows == [rows[0]] + rows[1..];
      PartOfConcat(At(f, n), n, [rows[0]], rows[1..], p);
      PartOfRow(At(f, n), n, rows[0], p);
    }
  }

  lemma {:induction false} SentIsHashed<V>(rows: seq<Row<V>>, hash: Row<V> -> nat, n: nat, p: nat)
    requires n > 0
    ensures SentTo(rows, DefaultPartitioner(hash), n, p) == HashedTo(rows, hash, n, p)
  {
    if rows != [] {
      SentIsHashed(rows[1..], hash, n, p);
    }
  }

  /**
   The input of a shard after a shuffle: from each shard of the dependency the
   rows that its own partitioner, or else their hash, sends to this shard.
   */
  lemma ShuffledInput<V>(g: Graph<V>, s: nat, shard: nat, i: nat)
    requires g.WellFormed() && s < |g.slices| && i < |g.slices[s].deps| && g.slices[s].deps[i].shuffle
    ensures var d, n := g.slices[s].deps[i], g.slices[s].numShard;
            && d.slice < s
            && (n > 1 && d.partitioner.Some? ==>
                  var parts := SentParts(g, d.slice, d.partitioner.value, n, shard);
                  Input(g, s, shard, i) == if d.expand then parts else [Flatten(parts)])
            && (n > 1 && d.partitioner.None? ==>
                  var parts := HashedParts(g, d.slice, n, shard);
                  Input(g, s, shard, i) == if d.expand then parts else [Flatten(parts)])
            && (n == 1 && shard == 0 ==>
                  var parts := seq(g.slices[d.slice].numShard, j requires 0 <= j < g.slices[d.slice].numShard =>
                                     Shard(g, d.slice, j));
                  Input(g, s, shard, i) == if d.expand then parts else [Flatten(parts)])
  {
    hide Shard, PartOf, Flatten;
    var d, n := g.slices[s].deps[i], g.slices[s].numShard;
    assert g.Fits(s, d);
    var parts := Parts(g, d, s, shard);
    forall j: nat | j < |parts|
      ensures n > 1 && d.partitioner.Some? ==>
                parts[j] == SentTo(Shard(g, d.slice, j), d.partitioner.value, n, shard)
      ensures n > 1 && d.partitioner.None? ==> parts[j] == HashedTo(Shard(g, d.slice, j), g.hash, n, shard)
      ensures n == 1 && shard == 0 ==> parts[j] == Shard(g, d.slice, j)
    {
      if n > 1 {
        PartIsSent(Shard(g, d.slice, j), PartitionerOf(g, d.partitioner), n, shard);
        SentIsHashed(Shard(g, d.slice, j), g.hash, n, shard);
      } else {
        PartOfOne(At(PartitionerOf(g, d.partitioner), n), Shard(g, d.slice, j));
      }
    }
    if n > 1 && d.partitioner.Some? {
      assert parts == SentParts(g, d.slice, d.partitioner.value, n, shard);
    } else if n > 1 {
      assert parts == HashedParts(g, d.slice, n, shard);
    } else if shard == 0 {
      assert parts == seq(g.slices[d.slice].numShard, j requires 0 <= j < g.slices[d.slice].numShard =>
                            Shard(g, d.slice, j));
    }
  }

  /** A shard of a slice with one dependency, a shuffle, in the same terms. */
  lemma ShuffledShard<V>(g: Graph<V>, s: nat, shard: nat)
    requires g.WellFormed() && s < |g.slices| && |g.slices[s].deps| == 1 && g.slices[s].deps[0].shuffle
    requires g.slices[s].numShard > 1
    ensures var d, n := g.slices[s].deps[0], g.slices[s].numShard;
            && d.slice < s
            && var parts := if d.partitioner.Some? then SentParts(g, d.slice, d.partitioner.value, n, shard)
                            else HashedParts(g, d.slice, n, shard);
               Shard(g, s, shard) == g.slices[s].reader(shard, if d.expand then parts else [Flatten(parts)])
  {
    hide Input, Flatten, SentParts, HashedParts;
    ShuffledInput(g, s, shard, 0);
    assert Inputs(g, s, shard, 1) == Inputs(g, s, shard, 0) + Input(g, s, shard, 0);
    assert Inputs(g, s, shard, 0) == [];
    assert [] + Input(g, s, shard, 0) == Input(g, s, shard, 0);
  }
}
