/**
 Where the machine manager keeps its machines (exec/slicemachine.go): healthy
 machines in a list, machines on probation in a heap by their last failure.
 Every machine knows its position.
 */
module MachineQueues {
  import opened Heaps

  type Id = nat

  datatype Health = Ok | Probation | Lost

  /** Machines by the time of their last failure. */
  function ByFailure(lastFailure: map<Id, int>): Id -> Rank {
    (m: Id) => if m in lastFailure then Rank(lastFailure[m], 0) else Rank(0, 0)
  }

  /** The failure that brought a machine on probation is on record. */
  ghost predicate Timed(health: map<Id, Health>, lastFailure: map<Id, int>) {
    forall m :: m in health && health[m] == Probation ==> m in lastFailure
  }

  /** The first machine on probation failed no later than the others. */
  lemma OldestFirst(machines: seq<Id>, probation: seq<Id>, health: map<Id, Health>, index: map<Id, int>,
                    lastFailure: map<Id, int>)
    requires Placed(machines, probation, health, index) && IsHeap(probation, ByFailure(lastFailure))
    requires Timed(health, lastFailure) && probation != []
    ensures forall x :: x in probation ==>
              probation[0] in lastFailure && x in lastFailure && lastFailure[probation[0]] <= lastFailure[x]
  {
    forall i | 0 <= i < |probation|
      ensures probation[i] in lastFailure && probation[0] in lastFailure
      ensures lastFailure[probation[0]] <= lastFailure[probation[i]]
    {
      RootIsLeast(probation, ByFailure(lastFailure), i);
    }
  }

  /** Every machine in the queue knows its position. */
  ghost predicate Positioned(q: seq<Id>, index: map<Id, int>) {
    forall k: nat :: k < |q| ==> q[k] in index && index[q[k]] == k
  }

  /** Swapping two machines of a heap also updates their positions. */
  function SwapIndex(q: seq<Id>, index: map<Id, int>, i: nat, j: nat): map<Id, int>
    requires i < |q| && j < |q|
  {
    var q' := Swap(q, i, j);
    index[q'[i] := i][q'[j] := j]
  }

  /** The positions after the swaps of a heap operation. */
  function Follow(q: seq<Id>, index: map<Id, int>, swaps: seq<(nat, nat)>): map<Id, int>
    requires InRange(swaps, |q|)
    decreases |swaps|
  {
    if swaps == [] then index
    else
      var init, last := swaps[..|swaps| - 1], swaps[|swaps| - 1];
      SwapIndex(Replay(q, init), Follow(q, index, init), last.0, last.1)
  }

  lemma {:induction false} FollowKeepsPositions(q: seq<Id>, index: map<Id, int>, swaps: seq<(nat, nat)>)
    requires InRange(swaps, |q|) && Positioned(q, index)
    ensures Positioned(Replay(q, swaps), Follow(q, index, swaps))
    decreases |swaps|
  {
    if swaps != [] {
      FollowKeepsPositions(q, index, swaps[..|swaps| - 1]);
    }
  }

  /** Only the positions of machines in the queue change. */
  lemma {:induction false} FollowKeepsOthers(q: seq<Id>, index: map<Id, int>, swaps: seq<(nat, nat)>, m: Id)
    requires InRange(swaps, |q|) && Positioned(q, index) && m in index && m !in q
    ensures m in Follow(q, index, swaps) && Follow(q, index, swaps)[m] == index[m]
    decreases |swaps|
  {
    if swaps != [] {
      var init, last := swaps[..|swaps| - 1], swaps[|swaps| - 1];
      FollowKeepsOthers(q, index, init, m);
      ReplayKeepsElements(q, init);
      var g := Replay(q, init);
      assert g[last.0] in multiset(q) && g[last.1] in multiset(q) by {
        assert g[last.0] in multiset(g) && g[last.1] in multiset(g);
      }
    }
  }

  lemma {:induction false} FollowKeepsKeys(q: seq<Id>, index: map<Id, int>, swaps: seq<(nat, nat)>)
    requires InRange(swaps, |q|) && Positioned(q, index)
    ensures Follow(q, index, swaps).Keys == index.Keys
    decreases |swaps|
  {
    if swaps != [] {
      var init, last := swaps[..|swaps| - 1], swaps[|swaps| - 1];
      FollowKeepsKeys(q, index, init);
      FollowKeepsPositions(q, index, init);
    }
  }

  /** A machine is where its health says, at its index. */
  ghost predicate PlacedAt(machines: seq<Id>, probation: seq<Id>, health: map<Id, Health>, index: map<Id, int>, m: Id)
    requires m in health && m in index
  {
    match health[m]
    case Ok => 0 <= index[m] < |machines| && machines[index[m]] == m
    case Probation => 0 <= index[m] < |probation| && probation[index[m]] == m
    case Lost => index[m] == -1
  }

  ghost predicate QueueOf(q: seq<Id>, kind: Health, health: map<Id, Health>, index: map<Id, int>) {
    Positioned(q, index) && forall k: nat :: k < |q| ==> q[k] in health && health[q[k]] == kind
  }

  /** Each machine is in exactly the right container, at its index. */
  ghost predicate Placed(machines: seq<Id>, probation: seq<Id>, health: map<Id, Health>, index: map<Id, int>) {
    && health.Keys == index.Keys
    && QueueOf(machines, Ok, health, index) && QueueOf(probation, Probation, health, index)
    && forall m :: m in health ==> PlacedAt(machines, probation, health, index, m)
  }

  /** The same for all machines but x, which is nowhere. */
  ghost predicate PlacedBut(x: Id, machines: seq<Id>, probation: seq<Id>, health: map<Id, Health>,
                            index: map<Id, int>) {
    && health.Keys == index.Keys && x in health && x !in machines && x !in probation && index[x] == -1
    && QueueOf(machines, Ok, health, index) && QueueOf(probation, Probation, health, index)
    && forall m :: m in health && m != x ==> PlacedAt(machines, probation, health, index, m)
  }

  /** A machine that is nowhere may as well be lost. */
  lemma NowhereIsLost(x: Id, machines: seq<Id>, probation: seq<Id>, health: map<Id, Health>, index: map<Id, int>)
    requires PlacedBut(x, machines, probation, health, index)
    ensures Placed(machines, probation, health[x := Lost], index)
  {
  }

  lemma LostIsNowhere(x: Id, machines: seq<Id>, probation: seq<Id>, health: map<Id, Health>, index: map<Id, int>,
                      h: Health)
    requires Placed(machines, probation, health, index) && (x in health ==> health[x] == Lost)
    ensures PlacedBut(x, machines, probation, health[x := h], index[x := -1])
  {
  }

  // What the moves do to the positions.

  lemma AppendKeeps(x: Id, machines: seq<Id>, probation: seq<Id>, health: map<Id, Health>, index: map<Id, int>)
    requires PlacedBut(x, machines, probation, health, index) && health[x] == Ok
    ensures Placed(machines + [x], probation, health, index[x := |machines|])
  {
    forall m | m in health
      ensures PlacedAt(machines + [x], probation, health, index[x := |machines|], m)
    {
      if m != x {
        assert PlacedAt(machines, probation, health, index, m);
      }
    }
  }

  /** The last machine takes the place of the one that leaves. */
  lemma RemoveKeeps(x: Id, machines: seq<Id>, probation: seq<Id>, health: map<Id, Health>, index: map<Id, int>)
    requires Placed(machines, probation, health, index) && x in health && health[x] == Ok
    ensures 0 <= index[x] < |machines|
    ensures var i, n := index[x], |machines| - 1;
            PlacedBut(x, machines[i := machines[n]][..n], probation, health, index[machines[n] := i][x := -1])
  {
    assert PlacedAt(machines, probation, health, index, x);
    var i, n := index[x], |machines| - 1;
    var ms, ix := machines[i := machines[n]][..n], index[machines[n] := i][x := -1];
    assert machines[n] in health && health[machines[n]] == Ok;
    forall k: nat | k < n
      ensures ms[k] != x && ms[k] in ix && ix[ms[k]] == k && ms[k] in health && health[ms[k]] == Ok
    {
      assert index[machines[k]] == k && index[machines[n]] == n;
    }
    forall m | m in health && m != x
      ensures PlacedAt(ms, probation, health, ix, m)
    {
      assert PlacedAt(machines, probation, health, index, m);
    }
    assert forall k: nat :: k < |probation| ==> probation[k] != x && probation[k] != machines[n];
  }

  /** Rearranging the heap keeps everything in place. */
  lemma FollowKeeps(machines: seq<Id>, probation: seq<Id>, health: map<Id, Health>, index: map<Id, int>,
                    swaps: seq<(nat, nat)>)
    requires Placed(machines, probation, health, index) && InRange(swaps, |probation|)
    ensures Placed(machines, Replay(probation, swaps), health, Follow(probation, index, swaps))
  {
    hide Follow, Replay;
    var q, ix := Replay(probation, swaps), Follow(probation, index, swaps);
    FollowKeepsPositions(probation, index, swaps);
    FollowKeepsKeys(probation, index, swaps);
    ReplayKeepsElements(probation, swaps);
    forall k: nat | k < |q|
      ensures q[k] in health && health[q[k]] == Probation
    {
      assert q[k] in multiset(q);
      assert q[k] in multiset(probation);
    }
    forall k: nat | k < |machines|
      ensures machines[k] in ix && ix[machines[k]] == k
    {
      NotOnProbation(machines, probation, health, index, machines[k]);
      FollowKeepsOthers(probation, index, swaps, machines[k]);
    }
    forall m | m in health
      ensures PlacedAt(machines, q, health, ix, m)
    {
      assert PlacedAt(machines, probation, health, index, m);
      if health[m] == Probation {
        assert m in multiset(probation);
        assert m in multiset(q);
        var k: nat :| k < |q| && q[k] == m;
      } else {
        NotOnProbation(machines, probation, health, index, m);
        FollowKeepsOthers(probation, index, swaps, m);
      }
    }
  }

  lemma NotOnProbation(machines: seq<Id>, probation: seq<Id>, health: map<Id, Health>, index: map<Id, int>, m: Id)
    requires Placed(machines, probation, health, index) && m in health && health[m] != Probation
    ensures m !in probation
  {
  }

  lemma PushKeeps(x: Id, machines: seq<Id>, probation: seq<Id>, health: map<Id, Health>, index: map<Id, int>)
    requires PlacedBut(x, machines, probation, health, index) && health[x] == Probation
    ensures Placed(machines, probation + [x], health, index[x := |probation|])
  {
    forall m | m in health
      ensures PlacedAt(machines, probation + [x], health, index[x := |probation|], m)
    {
      if m != x {
        assert PlacedAt(machines, probation, health, index, m);
      }
    }
  }

  lemma PopKeeps(x: Id, machines: seq<Id>, probation: seq<Id>, health: map<Id, Health>, index: map<Id, int>)
    requires Placed(machines, probation + [x], health, index)
    ensures PlacedBut(x, machines, probation, health, index[x := -1])
  {
    var q := probation + [x];
    assert q[|probation|] == x;
    forall k: nat | k < |probation|
      ensures probation[k] != x && probation[k] in index && index[probation[k]] == k
      ensures probation[k] in health && health[probation[k]] == Probation
    {
      assert q[k] == probation[k] && index[q[k]] == k;
    }
    forall m | m in health && m != x
      ensures PlacedAt(machines, probation, health, index[x := -1], m)
    {
      assert PlacedAt(machines, q, health, index, m);
    }
  }

  /** A machine's new failure time disorders only its own place in the heap. */
  lemma FailureChanged(probation: seq<Id>, index: map<Id, int>, lastFailure: map<Id, int>, i: nat, now: int)
    requires Positioned(probation, index) && i < |probation| && IsHeap(probation, ByFailure(lastFailure))
    ensures var rank := ByFailure(lastFailure[probation[i] := now]);
            OrderedBut(probation, rank, 0, |probation|, i) && Bridged(probation, rank, 0, |probation|, i)
  {
    var before, rank := ByFailure(lastFailure), ByFailure(lastFailure[probation[i] := now]);
    assert forall k: nat :: k < |probation| && k != i ==> rank(probation[k]) == before(probation[k]) by {
      assert forall k: nat :: k < |probation| && k != i ==> index[probation[k]] != index[probation[i]];
    }
    ReplaceOne(probation, before, |probation|, i, probation[i]);
    assert probation[i := probation[i]] == probation;
  }

  /** The machines under management. */
  class Pool {
    var machines: seq<Id>
    var probation: seq<Id>
    var health: map<Id, Health>
    var lastFailure: map<Id, int>
    var index: map<Id, int>

    ghost predicate Valid()
      reads this
    {
      && Placed(machines, probation, health, index) && IsHeap(probation, ByFailure(lastFailure))
      && Timed(health, lastFailure)
    }

    /** The number of machines that are not lost. */
    function Size(): nat
      reads this
    {
      |machines| + |probation|
    }

    constructor ()
      ensures Valid() && Size() == 0 && health == map[]
    {
      machines, probation, health, lastFailure, index := [], [], map[], map[], map[];
    }

    method AppendMachine(m: Id)
      requires PlacedBut(m, machines, probation, health, index) && health[m] == Ok
      modifies this`machines, this`index
      ensures Placed(machines, probation, health, index) && machines == old(machines) + [m]
    {
      AppendKeeps(m, machines, probation, health, index);
      index := index[m := |machines|];
      machines := machines + [m];
    }

    method RemoveMachine(m: Id)
      requires Placed(machines, probation, health, index) && m in health && health[m] == Ok
      modifies this`machines, this`index
      ensures PlacedBut(m, machines, probation, health, index) && |machines| == |old(machines)| - 1
    {
      hide PlacedBut, Placed;
      RemoveKeeps(m, machines, probation, health, index);
      assert m in index && machines[|machines| - 1] in index by {
        InQueues(machines, probation, health, index, m);
      }
      var i, n := index[m], |machines| - 1;
      machines := machines[i := machines[n]];
      index := index[machines[i] := i];
      index := index[m := -1];
      machines := machines[..n];
    }

    method PushProbation(m: Id)
      requires PlacedBut(m, machines, probation, health, index) && health[m] == Probation
      requires IsHeap(probation, ByFailure(lastFailure)) && Timed(health, lastFailure)
      modifies this`probation, this`index
      ensures Valid() && |probation| == |old(probation)| + 1
    {
      hide PlacedBut, Placed, IsHeap, Follow;
      PushKeeps(m, machines, probation, health, index);
      var ix, q := index[m := |probation|], probation + [m];
      var swaps;
      probation, swaps := Push(probation, ByFailure(lastFailure), m);
      FollowKeeps(machines, q, health, ix, swaps);
      index := Follow(q, ix, swaps);
    }

    method RemoveProbation(m: Id)
      requires Valid() && m in health && health[m] == Probation
      modifies this`probation, this`index
      ensures PlacedBut(m, machines, probation, health, index) && IsHeap(probation, ByFailure(lastFailure))
      ensures |probation| == |old(probation)| - 1
    {
      hide PlacedBut, HeapFrom, Follow, Replay;
      assert PlacedAt(machines, probation, health, index, m);
      var i, q := index[m], probation;
      ReplaceOne(q, ByFailure(lastFailure), |q|, i, m);
      assert q[i := m] == q;
      var x, swaps;
      x, probation, swaps := Heaps.Remove(q, ByFailure(lastFailure), i);
      FollowKeeps(machines, q, health, index, swaps);
      PopKeeps(m, machines, probation, health, Follow(q, index, swaps));
      index := Follow(q, index, swaps);
      index := index[m := -1];
    }

    /** A started machine joins. */
    method Add(m: Id)
      requires Valid() && m !in health
      modifies this
      ensures Valid() && health == old(health)[m := Ok] && Size() == old(Size()) + 1
      ensures machines == old(machines) + [m] && probation == old(probation)
    {
      hide IsHeap;
      LostIsNowhere(m, machines, probation, health, index, Ok);
      health, index := health[m := Ok], index[m := -1];
      AppendMachine(m);
    }

    /** Puts a healthy machine on probation. */
    method Suspend(m: Id, now: int)
      requires Valid() && m in health && health[m] == Ok
      modifies this
      ensures Valid() && health == old(health)[m := Probation] && Size() == old(Size())
      ensures lastFailure == old(lastFailure)[m := now]
    {
      hide PlacedBut, Placed, IsHeap;
      RemoveMachine(m);
      NowhereIsLost(m, machines, probation, health, index);
      LostIsNowhere(m, machines, probation, health[m := Lost], index, Probation);
      SameFailures(m, machines, probation, health, index, lastFailure, now);
      Nowhere(m, machines, probation, health, index);
      assert health[m := Lost][m := Probation] == health[m := Probation] && index[m := -1] == index;
      health := health[m := Probation];
      lastFailure := lastFailure[m := now];
      PushProbation(m);
    }

    /** Takes a machine off probation. */
    method Resume(m: Id)
      requires Valid() && m in health && health[m] == Probation
      modifies this
      ensures Valid() && health == old(health)[m := Ok] && Size() == old(Size())
      ensures machines == old(machines) + [m] && lastFailure == old(lastFailure)
    {
      hide PlacedBut, Placed, IsHeap;
      RemoveProbation(m);
      NowhereIsLost(m, machines, probation, health, index);
      LostIsNowhere(m, machines, probation, health[m := Lost], index, Ok);
      Nowhere(m, machines, probation, health, index);
      assert health[m := Lost][m := Ok] == health[m := Ok] && index[m := -1] == index;
      health := health[m := Ok];
      AppendMachine(m);
    }

    /** Another failure on probation. */
    method Extend(m: Id, now: int)
      requires Valid() && m in health && health[m] == Probation
      modifies this
      ensures Valid() && health == old(health) && Size() == old(Size())
      ensures machines == old(machines) && lastFailure == old(lastFailure)[m := now]
    {
      hide IsHeap, Follow, Replay;
      assert PlacedAt(machines, probation, health, index, m);
      var i, q := index[m], probation;
      FailureChanged(q, index, lastFailure, i, now);
      lastFailure := lastFailure[m := now];
      var swaps;
      probation, swaps := Fix(q, ByFailure(lastFailure), i);
      FollowKeeps(machines, q, health, index, swaps);
      index := Follow(q, index, swaps);
    }

    /** A stopped machine leaves. */
    method Drop(m: Id)
      requires Valid() && m in health && health[m] != Lost
      modifies this
      ensures Valid() && health == old(health)[m := Lost] && Size() == old(Size()) - 1
    {
      hide PlacedBut, Placed, IsHeap;
      match health[m] {
        case Ok =>
          RemoveMachine(m);
        case Probation =>
          RemoveProbation(m);
      }
      NowhereIsLost(m, machines, probation, health, index);
      health := health[m := Lost];
    }
  }

  lemma InQueues(machines: seq<Id>, probation: seq<Id>, health: map<Id, Health>, index: map<Id, int>, m: Id)
    requires Placed(machines, probation, health, index) && m in health && machines != []
    ensures m in index && machines[|machines| - 1] in index
  {
  }

  lemma Nowhere(x: Id, machines: seq<Id>, probation: seq<Id>, health: map<Id, Health>, index: map<Id, int>)
    requires PlacedBut(x, machines, probation, health, index)
    ensures x in index && index[x] == -1 && index[x := -1] == index
  {
  }

  /** The failure time of a machine that is not on probation does not matter. */
  lemma SameFailures(x: Id, machines: seq<Id>, probation: seq<Id>, health: map<Id, Health>, index: map<Id, int>,
                     lastFailure: map<Id, int>, now: int)
    requires PlacedBut(x, machines, probation, health, index) && IsHeap(probation, ByFailure(lastFailure))
    ensures IsHeap(probation, ByFailure(lastFailure[x := now]))
  {
    assert forall k: nat :: k < |probation| ==>
      ByFailure(lastFailure[x := now])(probation[k]) == ByFailure(lastFailure)(probation[k]);
  }
}
