/**
 The binary heap operations of Go's container/heap, which the sorted readers
 (sortio, cogroup.go) and the machine manager (exec/slicemachine.go) rely on.

 A heap is a sequence that the operations rearrange by swaps. Each operation
 also returns the swaps it made, so that containers whose Swap does more than
 exchange two elements can follow them.
 */
module Heaps {

  /** What elements are ordered by: first `major`, then `minor`. */
  datatype Rank = Rank(major: int, minor: int) {
    predicate Less(that: Rank) {
      major < that.major || (major == that.major && minor < that.minor)
    }

    predicate AtMost(that: Rank) {
      !that.Less(this)
    }
  }

  function Parent(i: nat): nat {
    if i == 0 then 0 else (i - 1) / 2
  }

  function Swap<T>(h: seq<T>, i: nat, j: nat): (h': seq<T>)
    requires i < |h| && j < |h|
  {
    h[i := h[j]][j := h[i]]
  }

  /** The swaps of a list, carried out in order. */
  function Replay<T>(h: seq<T>, swaps: seq<(nat, nat)>): (h': seq<T>)
    requires InRange(swaps, |h|)
    ensures |h'| == |h|
    decreases |swaps|
  {
    if swaps == [] then h
    else
      var last := swaps[|swaps| - 1];
      Swap(Replay(h, swaps[..|swaps| - 1]), last.0, last.1)
  }

  predicate InRange(swaps: seq<(nat, nat)>, n: nat) {
    forall k :: 0 <= k < |swaps| ==> swaps[k].0 < n && swaps[k].1 < n
  }

  lemma ReplayAppend<T>(h: seq<T>, swaps: seq<(nat, nat)>, i: nat, j: nat)
    requires InRange(swaps, |h|) && i < |h| && j < |h|
    ensures InRange(swaps + [(i, j)], |h|)
    ensures Replay(h, swaps + [(i, j)]) == Swap(Replay(h, swaps), i, j)
  {
    assert (swaps + [(i, j)])[..|swaps|] == swaps;
  }

  lemma SwapKeepsElements<T>(h: seq<T>, i: nat, j: nat)
    requires i < |h| && j < |h|
    ensures multiset(Swap(h, i, j)) == multiset(h)
  {
    var a := h[i := h[j]];
    assert multiset(a) == multiset(h) - multiset{h[i]} + multiset{h[j]};
    assert multiset(a[j := h[i]]) == multiset(a) - multiset{a[j]} + multiset{h[i]};
  }

  lemma {:induction false} ReplayKeepsElements<T>(h: seq<T>, swaps: seq<(nat, nat)>)
    requires InRange(swaps, |h|)
    ensures multiset(Replay(h, swaps)) == multiset(h)
    decreases |swaps|
  {
    if swaps != [] {
      var init, last := swaps[..|swaps| - 1], swaps[|swaps| - 1];
      ReplayKeepsElements(h, init);
      SwapKeepsElements(Replay(h, init), last.0, last.1);
    }
  }

  /** The first n elements are ordered along each edge from lo on that does not touch i. */
  ghost predicate OrderedBut<T>(h: seq<T>, rank: T -> Rank, lo: nat, n: nat, i: nat)
    requires n <= |h|
  {
    forall j :: 0 < j < n && lo <= Parent(j) && Parent(j) != i && j != i ==> rank(h[Parent(j)]).AtMost(rank(h[j]))
  }

  /** The children of i are in order with the parent of i. */
  ghost predicate Bridged<T>(h: seq<T>, rank: T -> Rank, lo: nat, n: nat, i: nat)
    requires n <= |h|
  {
    forall j :: 0 < j < n && Parent(j) == i && 0 < i && lo <= Parent(i) ==> rank(h[Parent(i)]).AtMost(rank(h[j]))
  }

  /** All edges among the first n elements, from lo on, are in order. */
  ghost predicate HeapFrom<T>(h: seq<T>, rank: T -> Rank, lo: nat, n: nat)
    requires n <= |h|
  {
    forall j :: 0 < j < n && lo <= Parent(j) ==> rank(h[Parent(j)]).AtMost(rank(h[j]))
  }

  ghost predicate IsHeap<T>(h: seq<T>, rank: T -> Rank) {
    HeapFrom(h, rank, 0, |h|)
  }

  /** Nothing in a heap is less than its first element. */
  lemma {:induction false} RootIsLeast<T>(h: seq<T>, rank: T -> Rank, i: nat)
    requires IsHeap(h, rank) && i < |h|
    ensures rank(h[0]).AtMost(rank(h[i]))
  {
    if i > 0 {
      RootIsLeast(h, rank, Parent(i));
      assert rank(h[Parent(i)]).AtMost(rank(h[i]));
    }
  }

  /** All edges but the one above i are in order. */
  ghost predicate AllButAbove<T>(h: seq<T>, rank: T -> Rank, lo: nat, n: nat, i: nat)
    requires n <= |h|
  {
    forall j :: 0 < j < n && lo <= Parent(j) && j != i ==> rank(h[Parent(j)]).AtMost(rank(h[j]))
  }

  /** Sinking the element at i to its smaller child c moves the disorder down. */
  lemma SinkStep<T>(h: seq<T>, rank: T -> Rank, lo: nat, n: nat, i: nat, c: nat)
    requires n <= |h| && lo <= i < c < n && Parent(c) == i
    requires OrderedBut(h, rank, lo, n, i) && Bridged(h, rank, lo, n, i)
    requires rank(h[c]).Less(rank(h[i]))
    requires forall j :: 0 < j < n && Parent(j) == i ==> rank(h[c]).AtMost(rank(h[j]))
    ensures var h' := Swap(h, i, c); OrderedBut(h', rank, lo, n, c) && Bridged(h', rank, lo, n, c)
  {
    var h' := Swap(h, i, c);
    forall j | 0 < j < n && lo <= Parent(j) && Parent(j) != c && j != c
      ensures rank(h'[Parent(j)]).AtMost(rank(h'[j]))
    {
      if Parent(j) == i && j != c {
        assert h'[j] == h[j];
      } else if j == i {
        assert h'[Parent(j)] == h[Parent(j)];
      }
    }
    forall j | 0 < j < n && Parent(j) == c
      ensures rank(h'[i]).AtMost(rank(h'[j]))
    {
      assert rank(h[c]).AtMost(rank(h[j]));
    }
  }

  /** An element that started at i0 has sunk to i. */
  ghost predicate Sunk<T>(h: seq<T>, rank: T -> Rank, lo: nat, n: nat, i0: nat, i: nat)
    requires n <= |h|
  {
    && lo <= i0 <= i < n
    && OrderedBut(h, rank, lo, n, i) && Bridged(h, rank, lo, n, i)
    && (i > i0 && 0 < i0 && lo <= Parent(i0) ==> rank(h[Parent(i0)]).AtMost(rank(h[i0])))
    && (i > i0 ==> i0 <= Parent(i) && rank(h[Parent(i)]).AtMost(rank(h[i])))
  }

  lemma SinkMore<T>(h: seq<T>, rank: T -> Rank, lo: nat, n: nat, i0: nat, i: nat, c: nat)
    requires n <= |h| && Sunk(h, rank, lo, n, i0, i) && i < c < n && Parent(c) == i
    requires rank(h[c]).Less(rank(h[i]))
    requires forall j :: 0 < j < n && Parent(j) == i ==> rank(h[c]).AtMost(rank(h[j]))
    ensures Sunk(Swap(h, i, c), rank, lo, n, i0, c)
  {
    SinkStep(h, rank, lo, n, i, c);
  }

  lemma SinkEnd<T>(h: seq<T>, rank: T -> Rank, lo: nat, n: nat, i0: nat, i: nat)
    requires n <= |h| && Sunk(h, rank, lo, n, i0, i)
    requires forall j :: 0 < j < n && Parent(j) == i ==> rank(h[i]).AtMost(rank(h[j]))
    ensures AllButAbove(h, rank, lo, n, i0)
    ensures i > i0 ==> HeapFrom(h, rank, lo, n)
  {
  }

  /** The smaller child is at most any child. */
  lemma Children<T>(h: seq<T>, rank: T -> Rank, n: nat, i: nat, c: nat)
    requires n <= |h| && 2 * i + 1 < n
    requires c == if 2 * i + 2 < n && rank(h[2 * i + 2]).Less(rank(h[2 * i + 1])) then 2 * i + 2 else 2 * i + 1
    ensures Parent(c) == i && i < c < n
    ensures forall j :: 0 < j < n && Parent(j) == i ==> rank(h[c]).AtMost(rank(h[j]))
  {
    forall j | 0 < j < n && Parent(j) == i
      ensures j == 2 * i + 1 || j == 2 * i + 2
    {
    }
  }

  /**
   Moves the element at i0 down among the first n elements. Afterwards
   everything from lo on is in order, except possibly the edge above i0 when
   nothing moved.
   */
  method Down<T>(h: seq<T>, rank: T -> Rank, i0: nat, n: nat, ghost lo: nat)
    returns (h': seq<T>, moved: bool, swaps: seq<(nat, nat)>)
    requires n <= |h| && lo <= i0 < n
    requires OrderedBut(h, rank, lo, n, i0) && Bridged(h, rank, lo, n, i0)
    ensures InRange(swaps, n) && h' == Replay(h, swaps) && (!moved ==> h' == h)
    ensures AllButAbove(h', rank, lo, n, i0)
    ensures moved ==> HeapFrom(h', rank, lo, n)
    ensures h'[n..] == h[n..]
  {
    hide OrderedBut, Bridged, AllButAbove, HeapFrom, Sunk, Parent, InRange, Replay;
    h', swaps := h, [];
    var i := i0;
    StartDown(h, rank, i0, n, lo);
    while 2 * i + 1 < n
      invariant i0 <= i && |h'| == |h|
      invariant InRange(swaps, n) && InRange(swaps, |h|) && h' == Replay(h, swaps) && (i == i0 ==> h' == h)
      invariant Sunk(h', rank, lo, n, i0, i)
      invariant h'[n..] == h[n..]
      decreases n - i
    {
      var c := 2 * i + 1;
      if c + 1 < n && rank(h'[c + 1]).Less(rank(h'[c])) {
        c := c + 1;
      }
      Children(h', rank, n, i, c);
      if !rank(h'[c]).Less(rank(h'[i])) {
        break;
      }
      SinkMore(h', rank, lo, n, i0, i, c);
      LogSwap(h, swaps, n, i, c);
      h' := Swap(h', i, c);
      swaps := swaps + [(i, c)];
      i := c;
    }
    NoChildren(i, n);
    SinkEnd(h', rank, lo, n, i0, i);
    moved := i > i0;
  }

  lemma StartDown<T>(h: seq<T>, rank: T -> Rank, i0: nat, n: nat, lo: nat)
    requires n <= |h| && lo <= i0 < n
    requires OrderedBut(h, rank, lo, n, i0) && Bridged(h, rank, lo, n, i0)
    ensures Sunk(h, rank, lo, n, i0, i0) && InRange([], n) && InRange([], |h|) && Replay(h, []) == h
  {
  }

  lemma NoChildren(i: nat, n: nat)
    ensures 2 * i + 1 >= n ==> forall j :: 0 < j < n ==> Parent(j) != i
  {
  }

  lemma LogSwap<T>(h: seq<T>, swaps: seq<(nat, nat)>, n: nat, i: nat, j: nat)
    requires InRange(swaps, n) && n <= |h| && InRange(swaps, |h|) && i < n && j < n
    ensures InRange(swaps + [(i, j)], n) && InRange(swaps + [(i, j)], |h|)
    ensures Replay(h, swaps + [(i, j)]) == Swap(Replay(h, swaps), i, j)
  {
    ReplayAppend(h, swaps, i, j);
  }

  /** Raising the element at j above its parent moves the disorder up. */
  lemma RiseStep<T>(h: seq<T>, rank: T -> Rank, n: nat, j: nat)
    requires n <= |h| && 0 < j < n
    requires AllButAbove(h, rank, 0, n, j) && Bridged(h, rank, 0, n, j)
    requires rank(h[j]).Less(rank(h[Parent(j)]))
    ensures var h' := Swap(h, Parent(j), j);
            AllButAbove(h', rank, 0, n, Parent(j)) && Bridged(h', rank, 0, n, Parent(j))
  {
    var i := Parent(j);
    var h' := Swap(h, i, j);
    forall k | 0 < k < n && k != i
      ensures rank(h'[Parent(k)]).AtMost(rank(h'[k]))
    {
      if Parent(k) == j || Parent(k) == i {
      } else {
        assert h'[k] == h[k] && h'[Parent(k)] == h[Parent(k)];
      }
    }
    forall k | 0 < k < n && Parent(k) == i && 0 < i
      ensures rank(h'[Parent(i)]).AtMost(rank(h'[k]))
    {
      assert rank(h[Parent(i)]).AtMost(rank(h[i]));
    }
  }

  /** Moves the element at j0 up among the first n elements. */
  method Up<T>(h: seq<T>, rank: T -> Rank, j0: nat, n: nat) returns (h': seq<T>, swaps: seq<(nat, nat)>)
    requires n <= |h| && j0 < n
    requires AllButAbove(h, rank, 0, n, j0) && Bridged(h, rank, 0, n, j0)
    ensures InRange(swaps, n) && h' == Replay(h, swaps)
    ensures HeapFrom(h', rank, 0, n)
    ensures h'[n..] == h[n..]
  {
    hide AllButAbove, Bridged, HeapFrom, InRange, Replay;
    h', swaps := h, [];
    var j: nat := j0;
    NoSwaps(h, n);
    while j > 0 && rank(h'[j]).Less(rank(h'[Parent(j)]))
      invariant j < n && |h'| == |h|
      invariant InRange(swaps, n) && InRange(swaps, |h|) && h' == Replay(h, swaps)
      invariant AllButAbove(h', rank, 0, n, j) && Bridged(h', rank, 0, n, j)
      invariant h'[n..] == h[n..]
      decreases j
    {
      var i := Parent(j);
      RiseStep(h', rank, n, j);
      LogSwap(h, swaps, n, i, j);
      h' := Swap(h', i, j);
      swaps := swaps + [(i, j)];
      j := i;
    }
    RiseEnd(h', rank, n, j);
  }

  lemma NoSwaps<T>(h: seq<T>, n: nat)
    ensures InRange([], n) && InRange([], |h|) && Replay(h, []) == h
  {
  }

  lemma RiseEnd<T>(h: seq<T>, rank: T -> Rank, n: nat, j: nat)
    requires n <= |h| && j < n && AllButAbove(h, rank, 0, n, j)
    requires j > 0 ==> rank(h[Parent(j)]).AtMost(rank(h[j]))
    ensures HeapFrom(h, rank, 0, n)
  {
  }

  lemma {:induction false} ReplayConcat<T>(h: seq<T>, a: seq<(nat, nat)>, b: seq<(nat, nat)>)
    requires InRange(a, |h|) && InRange(b, |h|)
    ensures InRange(a + b, |h|) && Replay(h, a + b) == Replay(Replay(h, a), b)
  {
    if b == [] {
      assert a + b == a;
    } else {
      assert (a + b)[..|a + b| - 1] == a + b[..|b| - 1];
      ReplayConcat(h, a, b[..|b| - 1]);
    }
  }

  /** Adds an element. */
  method Push<T>(h: seq<T>, rank: T -> Rank, x: T) returns (h': seq<T>, swaps: seq<(nat, nat)>)
    requires IsHeap(h, rank)
    ensures InRange(swaps, |h| + 1) && h' == Replay(h + [x], swaps)
    ensures IsHeap(h', rank) && multiset(h') == multiset(h) + multiset{x}
  {
    h', swaps := Up(h + [x], rank, |h|, |h| + 1);
    ReplayKeepsElements(h + [x], swaps);
  }

  /** Replacing one element of a heap disorders only the edges that touch it. */
  lemma ReplaceOne<T>(h: seq<T>, rank: T -> Rank, n: nat, i: nat, x: T)
    requires n <= |h| && i < n && HeapFrom(h, rank, 0, n)
    ensures OrderedBut(h[i := x], rank, 0, n, i) && Bridged(h[i := x], rank, 0, n, i)
  {
    var h' := h[i := x];
    forall j | 0 < j < n && Parent(j) == i && 0 < i
      ensures rank(h'[Parent(i)]).AtMost(rank(h'[j]))
    {
      assert rank(h[Parent(i)]).AtMost(rank(h[i])) && rank(h[i]).AtMost(rank(h[j]));
    }
  }

  /** Moves a disordered element into place, among the first n elements. */
  method Settle<T>(h: seq<T>, rank: T -> Rank, i: nat, n: nat) returns (h': seq<T>, swaps: seq<(nat, nat)>)
    requires n <= |h| && i < n
    requires OrderedBut(h, rank, 0, n, i) && Bridged(h, rank, 0, n, i)
    ensures InRange(swaps, n) && h' == Replay(h, swaps)
    ensures HeapFrom(h', rank, 0, n) && h'[n..] == h[n..]
  {
    var moved;
    h', moved, swaps := Down(h, rank, i, n, 0);
    if !moved {
      h', swaps := Up(h, rank, i, n);
    }
  }

  /** Restores the heap after the rank of the element at i has changed. */
  method Fix<T>(h: seq<T>, rank: T -> Rank, i: nat) returns (h': seq<T>, swaps: seq<(nat, nat)>)
    requires i < |h| && OrderedBut(h, rank, 0, |h|, i) && Bridged(h, rank, 0, |h|, i)
    ensures InRange(swaps, |h|) && h' == Replay(h, swaps)
    ensures IsHeap(h', rank) && multiset(h') == multiset(h)
  {
    h', swaps := Settle(h, rank, i, |h|);
    ReplayKeepsElements(h, swaps);
  }

  /** Removes the element at i, whatever its rank has become. */
  method Remove<T>(h: seq<T>, rank: T -> Rank, i: nat) returns (x: T, h': seq<T>, swaps: seq<(nat, nat)>)
    requires i < |h| && OrderedBut(h, rank, 0, |h|, i) && Bridged(h, rank, 0, |h|, i)
    ensures x == h[i] && InRange(swaps, |h|) && h' + [x] == Replay(h, swaps)
    ensures IsHeap(h', rank) && multiset(h') + multiset{x} == multiset(h)
  {
    hide OrderedBut, Bridged, HeapFrom, Replay, InRange, IsHeap;
    var n := |h| - 1;
    x, swaps := h[i], [];
    var g := h;
    NoSwaps(h, n);
    RemoveReady(h, rank, i);
    if n != i {
      g := Swap(h, i, n);
      var more;
      g, more := Settle(g, rank, i, n);
      MoreSwaps(h, i, more);
      swaps := [(i, n)] + more;
    }
    ReplayKeepsElements(h, swaps);
    h' := g[..n];
    assert g[n] == g[n..][0];
    assert g == h' + [x];
    HeapPrefix(g, rank, n);
  }

  /** Trading the element at i for the last one leaves a heap but for i. */
  lemma RemoveReady<T>(h: seq<T>, rank: T -> Rank, i: nat)
    requires i < |h| && OrderedBut(h, rank, 0, |h|, i) && Bridged(h, rank, 0, |h|, i)
    ensures var g := Swap(h, i, |h| - 1); OrderedBut(g, rank, 0, |h| - 1, i) && Bridged(g, rank, 0, |h| - 1, i)
    ensures i == |h| - 1 ==> HeapFrom(h, rank, 0, |h| - 1)
  {
  }

  lemma MoreSwaps<T>(h: seq<T>, i: nat, more: seq<(nat, nat)>)
    requires i < |h| && InRange(more, |h| - 1)
    ensures InRange(more, |h|) && InRange([(i, |h| - 1)] + more, |h|)
    ensures Replay(h, [(i, |h| - 1)] + more) == Replay(Swap(h, i, |h| - 1), more)
  {
    hide Replay, InRange, Swap;
    StillInRange(more, |h| - 1, |h|);
    OneSwap(h, i, |h| - 1);
    ReplayConcat(h, [(i, |h| - 1)], more);
  }

  lemma StillInRange(swaps: seq<(nat, nat)>, n: nat, m: nat)
    requires InRange(swaps, n) && n <= m
    ensures InRange(swaps, m)
  {
  }

  lemma OneSwap<T>(h: seq<T>, i: nat, j: nat)
    requires i < |h| && j < |h|
    ensures InRange([(i, j)], |h|) && Replay(h, [(i, j)]) == Swap(h, i, j)
  {
    assert [(i, j)][..0] == [];
  }

  lemma HeapPrefix<T>(g: seq<T>, rank: T -> Rank, n: nat)
    requires n <= |g| && HeapFrom(g, rank, 0, n)
    ensures IsHeap(g[..n], rank)
  {
  }

  /** Removes the least element. (Nothing can move up from the root, so this is a removal.) */
  method Pop<T>(h: seq<T>, rank: T -> Rank) returns (x: T, h': seq<T>, swaps: seq<(nat, nat)>)
    requires 0 < |h| && IsHeap(h, rank)
    ensures x == h[0] && InRange(swaps, |h|) && h' + [x] == Replay(h, swaps)
    ensures IsHeap(h', rank) && multiset(h') + multiset{x} == multiset(h)
    ensures forall y :: y in h ==> rank(x).AtMost(rank(y))
  {
    forall i | 0 <= i < |h|
      ensures rank(h[0]).AtMost(rank(h[i]))
    {
      RootIsLeast(h, rank, i);
    }
    ReplaceOne(h, rank, |h|, 0, h[0]);
    assert h[0 := h[0]] == h;
    x, h', swaps := Remove(h, rank, 0);
  }

  /** Turns a sequence into a heap. */
  method Init<T>(h: seq<T>, rank: T -> Rank) returns (h': seq<T>)
    ensures IsHeap(h', rank) && multiset(h') == multiset(h)
  {
    var n := |h|;
    h' := h;
    var i: nat := n / 2;
    while i > 0
      invariant i <= n / 2 && |h'| == n && multiset(h') == multiset(h)
      invariant HeapFrom(h', rank, i, n)
    {
      i := i - 1;
      ghost var g := h';
      var moved, swaps;
      h', moved, swaps := Down(h', rank, i, n, i);
      ReplayKeepsElements(g, swaps);
    }
  }
}
