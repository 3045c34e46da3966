/**
 The machine manager (exec/slicemachine.go): an event loop that grants procs
 on machines to requests, puts failing machines on probation and starts new
 machines when they are needed.
 */
module Manager {
  import opened Heaps
  import opened Monoids
  import opened Probing
  import opened MachineQueues

  /** The number of machines started at once. */
  const MAX_START_MACHINES: nat := 10

  /** A request for procs; lower priority values come first. */
  datatype Request = Request(priority: int, procs: int)

  /** Procs granted on a machine and not returned yet. */
  datatype Grant = Grant(machine: Id, procs: int)

  /** How the work on granted procs ended. */
  datatype Outcome = Success | RemoteError | OtherError

  datatype Event =
    | Offered
    | ProbationOver
    | Done(grant: nat, outcome: Outcome, now: int)
    | Requested(priority: int, procs: nat, exclusive: bool)
    | Started(machines: seq<Id>, failures: nat)
    | Stopped(machine: Id)

  function Min(a: int, b: int): int {
    if a < b then a else b
  }

  /** How many times n is needed to reach a. */
  function Ceil(a: int, n: int): int
    requires n > 0
  {
    (a + n - 1) / n
  }

  /** The procs a task asks for: at most what a machine has. */
  function Demand(procs: nat, exclusive: bool, machprocs: nat): (d: nat)
    requires machprocs > 0
    ensures procs > 0 ==> 1 <= d <= machprocs
    ensures exclusive ==> d == machprocs
    ensures !exclusive ==> d <= procs && (d == procs || d == machprocs < procs)
  {
    if exclusive || procs > machprocs then machprocs else procs
  }

  /** Requests by priority, and then the largest first. */
  function ByDemand(): Request -> Rank {
    (r: Request) => Rank(r.priority, -r.procs)
  }

  // Sums.

  ghost function Add(): (int, int) -> int {
    (a, b) => a + b
  }

  lemma AddIsMonoid()
    ensures CommutativeMonoid(Add(), 0)
  {
  }

  ghost function ProcsOf(): Request -> int {
    (r: Request) => r.procs
  }

  ghost function Queued(q: seq<Request>): int {
    Total(Add(), 0, ProcsOf(), q)
  }

  ghost function GrantProcs(): Grant -> int {
    (g: Grant) => g.procs
  }

  ghost function Granted(grants: seq<Grant>): int {
    Total(Add(), 0, GrantProcs(), grants)
  }

  ghost function GrantOn(m: Id): Grant -> int {
    (g: Grant) => if g.machine == m then g.procs else 0
  }

  ghost function GrantedOn(grants: seq<Grant>, m: Id): int {
    Total(Add(), 0, GrantOn(m), grants)
  }

  lemma QueuedPermuted(a: seq<Request>, b: seq<Request>)
    requires multiset(a) == multiset(b)
    ensures Queued(a) == Queued(b)
  {
    AddIsMonoid();
    TotalPermuted(Add(), 0, ProcsOf(), a, b);
  }

  lemma QueuedAppend(q: seq<Request>, r: Request)
    ensures Queued(q + [r]) == Queued(q) + r.procs
  {
    TotalAppend(Add(), 0, ProcsOf(), q, r);
  }

  lemma GrantedAppend(grants: seq<Grant>, g: Grant, m: Id)
    ensures Granted(grants + [g]) == Granted(grants) + g.procs
    ensures GrantedOn(grants + [g], m) == GrantedOn(grants, m) + if g.machine == m then g.procs else 0
  {
    TotalAppend(Add(), 0, GrantProcs(), grants, g);
    TotalAppend(Add(), 0, GrantOn(m), grants, g);
  }

  lemma GrantedWithout(grants: seq<Grant>, k: nat, m: Id)
    requires k < |grants|
    ensures Granted(grants[..k] + grants[k + 1..]) == Granted(grants) - grants[k].procs
    ensures GrantedOn(grants[..k] + grants[k + 1..], m) ==
            GrantedOn(grants, m) - if grants[k].machine == m then grants[k].procs else 0
  {
    AddIsMonoid();
    TotalWithout(Add(), 0, GrantProcs(), grants, k);
    TotalWithout(Add(), 0, GrantOn(m), grants, k);
  }

  lemma {:induction false} QueuedPositive(q: seq<Request>)
    requires forall i :: 0 <= i < |q| ==> q[i].procs >= 1
    ensures Queued(q) >= |q|
  {
    if q != [] {
      QueuedPositive(q[..|q| - 1]);
    }
  }

  lemma {:induction false} GrantedPositive(grants: seq<Grant>, m: Id)
    requires forall i :: 0 <= i < |grants| ==> grants[i].procs >= 1
    ensures Granted(grants) >= GrantedOn(grants, m) >= 0
  {
    if grants != [] {
      GrantedPositive(grants[..|grants| - 1], m);
    }
  }

  // Accounting.

  ghost predicate Fair(q: seq<Request>, machprocs: nat) {
    forall i :: 0 <= i < |q| ==> 1 <= q[i].procs <= machprocs
  }

  /** Need counts queued and unreturned procs; the load of each machine is what was granted on it. */
  ghost predicate Balanced(need: int, q: seq<Request>, grants: seq<Grant>, taskProcs: map<Id, int>, machprocs: nat) {
    && need == Queued(q) + Granted(grants) && Fair(q, machprocs)
    && (forall i :: 0 <= i < |grants| ==> grants[i].machine in taskProcs && grants[i].procs >= 1)
    && (forall m :: m in taskProcs ==> taskProcs[m] == GrantedOn(grants, m) && 0 <= taskProcs[m] <= machprocs)
  }

  lemma BalanceRequest(need: int, q: seq<Request>, q': seq<Request>, grants: seq<Grant>, taskProcs: map<Id, int>,
                       machprocs: nat, r: Request)
    requires Balanced(need, q, grants, taskProcs, machprocs) && 1 <= r.procs <= machprocs
    requires multiset(q') == multiset(q) + multiset{r}
    ensures Balanced(need + r.procs, q', grants, taskProcs, machprocs)
  {
    hide Queued, Granted, GrantedOn;
    assert multiset(q + [r]) == multiset(q) + multiset{r};
    QueuedPermuted(q', q + [r]);
    QueuedAppend(q, r);
    FairStays(q + [r], q', machprocs);
  }

  lemma FairStays(q: seq<Request>, q': seq<Request>, machprocs: nat)
    requires Fair(q, machprocs) && multiset(q') <= multiset(q)
    ensures Fair(q', machprocs)
  {
    forall i | 0 <= i < |q'|
      ensures 1 <= q'[i].procs <= machprocs
    {
      assert q'[i] in multiset(q');
      assert q'[i] in multiset(q);
    }
  }

  lemma BalanceGrant(need: int, q: seq<Request>, q': seq<Request>, grants: seq<Grant>, taskProcs: map<Id, int>,
                     machprocs: nat, r: Request, m: Id)
    requires Balanced(need, q, grants, taskProcs, machprocs) && multiset(q') + multiset{r} == multiset(q)
    requires m in taskProcs && r.procs <= machprocs - taskProcs[m]
    ensures Balanced(need, q', grants + [Grant(m, r.procs)], taskProcs[m := taskProcs[m] + r.procs], machprocs)
  {
    hide Queued, Granted, GrantedOn;
    assert multiset(q' + [r]) == multiset(q') + multiset{r};
    QueuedPermuted(q, q' + [r]);
    QueuedAppend(q', r);
    FairStays(q, q', machprocs);
    FairStays(q, q' + [r], machprocs);
    assert (q' + [r])[|q'|] == r;
    forall x: Id
      ensures Granted(grants + [Grant(m, r.procs)]) == Granted(grants) + r.procs
      ensures GrantedOn(grants + [Grant(m, r.procs)], x) == GrantedOn(grants, x) + if x == m then r.procs else 0
    {
      GrantedAppend(grants, Grant(m, r.procs), x);
    }
  }

  lemma BalanceReturn(need: int, q: seq<Request>, grants: seq<Grant>, taskProcs: map<Id, int>, machprocs: nat, k: nat)
    requires Balanced(need, q, grants, taskProcs, machprocs) && k < |grants|
    ensures grants[k].machine in taskProcs
    ensures var g := grants[k];
            Balanced(need - g.procs, q, grants[..k] + grants[k + 1..],
                     taskProcs[g.machine := taskProcs[g.machine] - g.procs], machprocs)
  {
    hide Queued, Granted, GrantedOn;
    var g, rest := grants[k], grants[..k] + grants[k + 1..];
    forall x: Id
      ensures Granted(rest) == Granted(grants) - g.procs
      ensures GrantedOn(rest, x) == GrantedOn(grants, x) - if x == g.machine then g.procs else 0
      ensures GrantedOn(rest, x) >= 0
    {
      GrantedWithout(grants, k, x);
      GrantedPositive(rest, x);
    }
  }

  lemma BalanceStart(need: int, q: seq<Request>, grants: seq<Grant>, taskProcs: map<Id, int>, machprocs: nat, m: Id)
    requires Balanced(need, q, grants, taskProcs, machprocs) && m !in taskProcs
    ensures Balanced(need, q, grants, taskProcs[m := 0], machprocs)
  {
    NothingGranted(grants, m);
  }

  lemma {:induction false} NothingGranted(grants: seq<Grant>, m: Id)
    requires forall i :: 0 <= i < |grants| ==> grants[i].machine != m
    ensures GrantedOn(grants, m) == 0
  {
    if grants != [] {
      NothingGranted(grants[..|grants| - 1], m);
    }
  }

  // Scaling up.

  lemma DivMonotone(a: int, b: int, n: int)
    requires n > 0 && a <= b
    ensures a / n <= b / n
  {
    assert n * (b / n - a / n) == n * (b / n) - n * (a / n);
    NonNegativeFactor(n, b / n - a / n);
  }

  lemma DivShift(a: int, k: int, n: int)
    requires n > 0
    ensures (a - n * k) / n == a / n - k
  {
    assert n * (a / n - k) == n * (a / n) - n * k;
    ModUnique(a - n * k, a / n - k, a % n, n);
  }

  /** Starting what is missing never goes beyond the limit, and starts at least one machine. */
  lemma ScaleUpBounds(need: int, maxp: int, machprocs: nat, count: nat)
    requires machprocs > 0 && machprocs * count < need && machprocs * count < maxp
    ensures var missing := Min(need, maxp) - machprocs * count;
            1 <= (missing + machprocs - 1) / machprocs &&
              count + (missing + machprocs - 1) / machprocs <= Ceil(maxp, machprocs)
  {
    var missing := Min(need, maxp) - machprocs * count;
    DivMonotone(machprocs, missing + machprocs - 1, machprocs);
    ModUnique(machprocs, 1, 0, machprocs);
    DivMonotone(missing + machprocs - 1, maxp + machprocs - 1 - machprocs * count, machprocs);
    DivShift(maxp + machprocs - 1, count, machprocs);
  }

  lemma Counted(machprocs: nat, size: nat, starting: nat)
    ensures size * machprocs + machprocs * starting == machprocs * (size + starting)
  {
  }

  /**
   The decision to start machines, given how many are there: none if there are
   enough procs, otherwise up to ten, up to what is needed and allowed.
   */
  ghost predicate Scaled(need: int, maxp: int, machprocs: nat, size: nat, before: nat, after: nat) {
    && machprocs > 0 && before <= after <= before + MAX_START_MACHINES
    && (machprocs * (size + before) >= Min(need, maxp) ==> after == before)
    && (machprocs * (size + after) >= Min(need, maxp) || after == before + MAX_START_MACHINES)
    && (size + before <= Ceil(maxp, machprocs) ==> size + after <= Ceil(maxp, machprocs))
    && (need >= 1 && maxp >= 1 ==> size + after >= 1)
  }

  lemma ScaleUpStep(need: int, maxp: int, machprocs: nat, size: nat, starting: nat, more: int)
    requires machprocs > 0 && machprocs * (size + starting) < need && machprocs * (size + starting) < maxp
    requires more == Min((Min(need, maxp) - machprocs * (size + starting) + machprocs - 1) / machprocs,
                         MAX_START_MACHINES)
    ensures more >= 1 && Scaled(need, maxp, machprocs, size, starting, starting + more)
    ensures machprocs * starting + more * machprocs == machprocs * (starting + more)
  {
    hide Ceil;
    var count := size + starting;
    ScaleUpBounds(need, maxp, machprocs, count);
    Enough(Min(need, maxp) - machprocs * count, machprocs);
    assert machprocs * (count + more) == machprocs * count + machprocs * more;
    assert size + (starting + more) == count + more;
  }

  lemma ScaleUpNone(need: int, maxp: int, machprocs: nat, size: nat, starting: nat)
    requires machprocs > 0 && machprocs * (size + starting) >= Min(need, maxp)
    ensures Scaled(need, maxp, machprocs, size, starting, starting)
  {
    hide Ceil;
    if need >= 1 && maxp >= 1 {
      SomeThere(machprocs, size + starting);
    }
  }

  lemma ScaledFacts(need: int, maxp: int, machprocs: nat, size: nat, before: nat, after: nat)
    requires Scaled(need, maxp, machprocs, size, before, after)
    ensures before <= after && (need >= 1 && maxp >= 1 ==> size + after >= 1)
    ensures size + before <= Ceil(maxp, machprocs) ==> size + after <= Ceil(maxp, machprocs)
  {
  }

  lemma CeilBounds(a: int, n: int)
    requires n > 0
    ensures (Ceil(a, n) - 1) * n < a <= Ceil(a, n) * n
  {
    var b := a + n - 1;
    assert b == n * (b / n) + b % n;
    assert (b / n - 1) * n == n * (b / n) - n;
  }

  /** The procs of a machine, and the procs that may be allocated, for a given load. */
  function Capacity(maxprocs: nat, maxLoad: real, maxp: int): (c: (nat, int))
    requires maxprocs > 0 && maxLoad >= 0.0
    ensures c.0 >= 1 && (maxp >= 1 ==> c.1 >= 1)
    ensures maxprocs as real * maxLoad >= 1.0 ==>
              c.0 as real <= maxprocs as real * maxLoad < c.0 as real + 1.0 && c.1 == maxp
    ensures maxprocs as real * maxLoad < 1.0 ==>
              c.0 == 1 && (c.1 - 1) * maxprocs < maxp <= c.1 * maxprocs
  {
    var procs := (maxprocs as real * maxLoad).Floor;
    if procs < 1 then
      assert maxp >= 1 ==> Ceil(maxp, maxprocs) >= 1 by {
        if maxp >= 1 {
          DivMonotone(maxprocs, maxp + maxprocs - 1, maxprocs);
          ModUnique(maxprocs, 1, 0, maxprocs);
        }
      }
      CeilBounds(maxp, maxprocs);
      (1, Ceil(maxp, maxprocs))
    else (procs, maxp)
  }

  class Manager {
    const maxp: int
    const machprocs: nat
    const pool: Pool
    var need: int
    var pending: int
    var schedQ: seq<Request>
    var taskProcs: map<Id, int>
    // The rest of the world: procs in use by clients, and machines being started.
    var grants: seq<Grant>
    var starting: nat

    ghost predicate Valid()
      reads this, pool
    {
      && machprocs >= 1 && maxp >= 1
      && pool.Valid() && pool.health.Keys == taskProcs.Keys
      && IsHeap(schedQ, ByDemand())
      && Balanced(need, schedQ, grants, taskProcs, machprocs)
      && pending == machprocs * starting
      && pool.Size() + starting <= Ceil(maxp, machprocs)
    }

    constructor (maxprocs: nat, maxLoad: real, maxp: int)
      requires maxprocs > 0 && maxLoad >= 0.0 && maxp >= 1
      ensures Valid() && fresh(pool) && schedQ == [] && grants == [] && starting == 0
      ensures (machprocs, this.maxp) == Capacity(maxprocs, maxLoad, maxp)
    {
      var c := Capacity(maxprocs, maxLoad, maxp);
      machprocs, this.maxp := c.0, c.1;
      pool := new Pool();
      need, pending, schedQ, taskProcs := 0, 0, [], map[];
      grants, starting := [], 0;
      new;
      assert pool.Size() + starting <= Ceil(this.maxp, machprocs) by {
        DivMonotone(0, this.maxp + machprocs - 1, machprocs);
      }
    }

    /** The first machine with room for the request. */
    method Schedule(r: Request) returns (found: bool, m: Id)
      requires Valid()
      ensures found ==> m in pool.machines && m in taskProcs && r.procs <= machprocs - taskProcs[m]
      ensures !found ==> forall k :: 0 <= k < |pool.machines| ==>
                pool.machines[k] in taskProcs && r.procs > machprocs - taskProcs[pool.machines[k]]
    {
      for i := 0 to |pool.machines|
        invariant forall k :: 0 <= k < i ==>
                    pool.machines[k] in taskProcs && r.procs > machprocs - taskProcs[pool.machines[k]]
      {
        m := pool.machines[i];
        assert m in pool.health;
        if r.procs <= machprocs - taskProcs[m] {
          return true, m;
        }
      }
      return false, 0;
    }

    /** Grants the first request in line, if some machine has room. */
    method Offer() returns (found: bool, m: Id)
      requires Valid()
      modifies this
      ensures Valid() && starting == old(starting) && need == old(need)
      ensures !found ==> schedQ == old(schedQ) && grants == old(grants)
      ensures found ==>
                old(schedQ) != [] && m in pool.machines && grants == old(grants) + [Grant(m, old(schedQ)[0].procs)]
      ensures found ==> multiset(schedQ) + multiset{old(schedQ)[0]} == multiset(old(schedQ))
      ensures found ==> forall r :: r in old(schedQ) ==>
                old(schedQ)[0].priority < r.priority ||
                (old(schedQ)[0].priority == r.priority && old(schedQ)[0].procs >= r.procs)
      ensures !found && schedQ != [] ==> forall k :: 0 <= k < |pool.machines| ==>
                pool.machines[k] in taskProcs && schedQ[0].procs > machprocs - taskProcs[pool.machines[k]]
    {
      hide Balanced, IsHeap, pool.Valid;
      found, m := false, 0;
      if schedQ == [] {
        return;
      }
      found, m := Schedule(schedQ[0]);
      if found {
        var r, q, swaps := Pop(schedQ, ByDemand());
        BalanceGrant(need, schedQ, q, grants, taskProcs, machprocs, r, m);
        taskProcs := taskProcs[m := taskProcs[m] + r.procs];
        grants := grants + [Grant(m, r.procs)];
        schedQ := q;
      }
    }

    /** The machine that failed longest ago leaves probation. */
    method ProbationOver()
      requires Valid() && pool.probation != []
      modifies pool
      ensures Valid() && pool.health == old(pool.health[pool.probation[0] := Ok])
      ensures old(pool.probation[0] in pool.health && pool.health[pool.probation[0]] == Probation)
      ensures pool.lastFailure == old(pool.lastFailure)
      ensures old(forall x :: x in pool.probation ==>
                    && pool.probation[0] in pool.lastFailure && x in pool.lastFailure
                    && pool.lastFailure[pool.probation[0]] <= pool.lastFailure[x])
    {
      hide Balanced, IsHeap;
      OldestFirst(pool.machines, pool.probation, pool.health, pool.index, pool.lastFailure);
      assert pool.probation[0] in pool.health && pool.health[pool.probation[0]] == Probation;
      pool.Resume(pool.probation[0]);
    }

    /**
     Procs are returned. A machine that could not be reached goes on probation,
     or stays there for longer; a success takes it off.
     */
    method Done(k: nat, outcome: Outcome, now: int)
      requires Valid() && k < |grants|
      modifies this, pool
      ensures Valid() && need == old(need) - old(grants[k].procs)
      ensures grants == old(grants[..k] + grants[k + 1..]) && schedQ == old(schedQ) && starting == old(starting)
      ensures var m, h := old(grants[k].machine), old(pool.health);
              && m in h
              && pool.health ==
                 (if h[m] == Ok && outcome == OtherError then h[m := Probation]
                  else if h[m] == Probation && outcome == Success then h[m := Ok] else h)
              && pool.lastFailure ==
                 (if (outcome == OtherError && h[m] == Ok) || (outcome != Success && h[m] == Probation)
                  then old(pool.lastFailure)[m := now] else old(pool.lastFailure))
    {
      hide Balanced, IsHeap, pool.Valid;
      BalanceReturn(need, schedQ, grants, taskProcs, machprocs, k);
      var m, procs := grants[k].machine, grants[k].procs;
      need := need - procs;
      taskProcs := taskProcs[m := taskProcs[m] - procs];
      grants := grants[..k] + grants[k + 1..];
      if outcome == OtherError && pool.health[m] == Ok {
        pool.Suspend(m, now);
      } else if outcome == Success && pool.health[m] == Probation {
        pool.Resume(m);
      } else if pool.health[m] == Probation {
        pool.Extend(m, now);
      }
    }

    method Requested(r: Request)
      requires Valid() && 1 <= r.procs <= machprocs
      modifies this
      ensures Valid() && multiset(schedQ) == multiset(old(schedQ)) + multiset{r} && need == old(need) + r.procs
      ensures grants == old(grants) && starting == old(starting)
    {
      hide Balanced, IsHeap, pool.Valid;
      var q, swaps := Push(schedQ, ByDemand(), r);
      BalanceRequest(need, schedQ, q, grants, taskProcs, machprocs, r);
      schedQ := q;
      need := need + r.procs;
    }

    /** Machines have been started, or failed to. */
    method Started(machines: seq<Id>, failures: nat)
      requires Valid() && |machines| + failures <= starting && New(machines, pool.health)
      modifies this, pool
      ensures Valid() && starting == old(starting) - |machines| - failures &&
              pool.Size() == old(pool.Size()) + |machines|
      ensures need == old(need) && schedQ == old(schedQ) && grants == old(grants)
      ensures pool.machines == old(pool.machines) + machines && pool.probation == old(pool.probation)
      ensures pool.health.Keys == old(pool.health.Keys) + (set x | x in machines)
      ensures forall x :: x in machines ==> x !in old(pool.health) && pool.health[x] == Ok
      ensures forall x :: x in old(pool.health) ==> pool.health[x] == old(pool.health)[x]
    {
      hide Balanced, IsHeap, pool.Valid, New;
      pending := pending - machprocs * (|machines| + failures);
      ghost var total, size := starting, pool.Size();
      starting := starting - (|machines| + failures);
      assert pending == machprocs * starting;
      NewRest(machines, pool.health);
      for i := 0 to |machines|
        invariant pool.Size() == size + i && starting == total - |machines| - failures &&
                  pending == machprocs * starting
        invariant pool.Valid() && pool.health.Keys == taskProcs.Keys && New(machines[i..], pool.health)
        invariant Balanced(need, schedQ, grants, taskProcs, machprocs) && IsHeap(schedQ, ByDemand())
        invariant need == old(need) && schedQ == old(schedQ) && grants == old(grants)
        invariant pool.machines == old(pool.machines) + machines[..i] && pool.probation == old(pool.probation)
        invariant pool.health.Keys == old(pool.health.Keys) + (set x | x in machines[..i])
        invariant forall x :: x in machines[..i] ==> x !in old(pool.health) && pool.health[x] == Ok
        invariant forall x :: x in old(pool.health) ==> pool.health[x] == old(pool.health)[x]
      {
        var m := machines[i];
        assert machines[..i + 1] == machines[..i] + [m];
        NewNext(machines[i..], pool.health, m);
        BalanceStart(need, schedQ, grants, taskProcs, machprocs, m);
        pool.Add(m);
        taskProcs := taskProcs[m := 0];
        assert machines[i..][1..] == machines[i + 1..];
      }
      assert machines[..|machines|] == machines;
    }

    /** A stopped machine is removed from management. */
    method Stopped(m: Id)
      requires Valid() && m in pool.health && pool.health[m] != Lost
      modifies pool
      ensures Valid() && pool.health == old(pool.health)[m := Lost] && pool.Size() == old(pool.Size()) - 1
    {
      hide Balanced, IsHeap, pool.Valid;
      pool.Drop(m);
    }

    /** Starts machines if fewer procs are there or coming than are needed and allowed. */
    method ScaleUp()
      requires Valid()
      modifies this`pending, this`starting
      ensures Valid() && NotStuck() && Scaled(need, maxp, machprocs, pool.Size(), old(starting), starting)
    {
      hide Balanced, IsHeap, pool.Valid, Ceil, NotStuck, Scaled;
      var have := pool.Size() * machprocs;
      ghost var before := starting;
      Counted(machprocs, pool.Size(), starting);
      if have + pending < need && have + pending < maxp {
        var needProcs := Min(need, maxp) - have - pending;
        var needMachines := Min((needProcs + machprocs - 1) / machprocs, MAX_START_MACHINES);
        ScaleUpStep(need, maxp, machprocs, pool.Size(), starting, needMachines);
        pending := pending + needMachines * machprocs;
        starting := starting + needMachines;
      } else {
        ScaleUpNone(need, maxp, machprocs, pool.Size(), starting);
      }
      ScaledFacts(need, maxp, machprocs, pool.Size(), before, starting);
      Unstuck();
    }

    /**
     While a request is queued, some machine has room for the first one, or
     procs are in use on a healthy machine, or a machine is on probation, or
     machines are being started.
     */
    ghost predicate NotStuck()
      reads this, pool
    {
      schedQ != [] ==>
        pool.probation != [] || starting > 0 || exists k :: 0 <= k < |pool.machines| && Helps(pool.machines[k])
    }

    ghost predicate Helps(m: Id)
      requires schedQ != []
      reads this
    {
      m in taskProcs && (taskProcs[m] > 0 || schedQ[0].procs <= machprocs - taskProcs[m])
    }

    lemma Unstuck()
      requires Valid() && (need >= 1 ==> pool.Size() + starting >= 1)
      ensures NotStuck()
    {
      if schedQ != [] {
        QueuedPositive(schedQ);
        GrantedPositive(grants, 0);
        if pool.probation == [] && starting == 0 {
          var m := pool.machines[0];
          assert m in pool.health;
          assert Helps(m);
        }
      }
    }

    /** What can be seen of the manager between two turns. */
    function Now(): View
      reads this, pool
    {
      View(schedQ, grants, pool.health, pool.probation, starting)
    }

    /** One turn of the event loop: the event has its effect, and machines are started if they are needed. */
    method Step(e: Event)
      requires Valid() && Now().Allows(e)
      modifies this, pool
      ensures Valid() && NotStuck()
      ensures Scaled(need, maxp, machprocs, pool.Size(),
                     old(starting) - (if e.Started? then |e.machines| + e.failures else 0), starting)
      ensures e.Offered? ==>
                && pool.health == old(pool.health)
                && if |grants| == |old(grants)|
                   then && schedQ == old(schedQ) && grants == old(grants)
                        && (schedQ == [] || forall k :: 0 <= k < |pool.machines| ==>
                              && pool.machines[k] in taskProcs
                              && schedQ[0].procs > machprocs - taskProcs[pool.machines[k]])
                   else && old(schedQ) != [] && |grants| == |old(grants)| + 1 && grants[..|old(grants)|] == old(grants)
                        && grants[|old(grants)|].machine in pool.machines
                        && grants[|old(grants)|].procs == old(schedQ)[0].procs
                        && multiset(schedQ) + multiset{old(schedQ)[0]} == multiset(old(schedQ))
                        && forall r :: r in old(schedQ) ==>
                             || old(schedQ)[0].priority < r.priority
                             || (old(schedQ)[0].priority == r.priority && old(schedQ)[0].procs >= r.procs)
      ensures !e.Offered? && !e.Requested? ==> schedQ == old(schedQ)
      ensures !e.Offered? && !e.Done? ==> grants == old(grants)
      ensures e.ProbationOver? ==>
                && old(pool.probation[0] in pool.health && pool.health[pool.probation[0]] == Probation)
                && pool.health == old(pool.health[pool.probation[0] := Ok])
                && old(forall x :: x in pool.probation ==>
                         && pool.probation[0] in pool.lastFailure && x in pool.lastFailure
                         && pool.lastFailure[pool.probation[0]] <= pool.lastFailure[x])
      ensures e.Done? ==>
                var m, h := old(grants)[e.grant].machine, old(pool.health);
                && m in h && grants == old(grants)[..e.grant] + old(grants)[e.grant + 1..]
                && pool.health ==
                   (if h[m] == Ok && e.outcome == OtherError then h[m := Probation]
                    else if h[m] == Probation && e.outcome == Success then h[m := Ok] else h)
      ensures e.Requested? ==>
                && pool.health == old(pool.health)
                && multiset(schedQ) == multiset(old(schedQ)) +
                   multiset{Request(e.priority, if e.exclusive || e.procs > machprocs then machprocs else e.procs)}
      ensures e.Started? ==>
                && pool.health.Keys == old(pool.health.Keys) + (set x | x in e.machines)
                && (forall x :: x in e.machines ==> x !in old(pool.health) && pool.health[x] == Ok)
                && (forall x :: x in old(pool.health) ==> pool.health[x] == old(pool.health)[x])
      ensures e.Stopped? ==> pool.health == old(pool.health)[e.machine := Lost]
    {
      hide Balanced, IsHeap, pool.Valid, NotStuck, New, Ceil, Scaled;
      match e {
        case Offered =>
          var found, m := Offer();
        case ProbationOver =>
          ProbationOver();
        case Done(k, outcome, now) =>
          Done(k, outcome, now);
        case Requested(priority, procs, exclusive) =>
          Requested(Request(priority, Demand(procs, exclusive, machprocs)));
        case Started(ms, failures) =>
          Started(ms, failures);
        case Stopped(m) =>
          Stopped(m);
      }
      ScaleUp();
    }
  }

  /** The requests in line, the procs in use, and the machines. */
  datatype View = View(schedQ: seq<Request>, grants: seq<Grant>, health: map<Id, Health>, probation: seq<Id>,
                       starting: nat) {

    /** What the rest of the world may do next. */
    predicate Allows(e: Event) {
      match e
      case Offered => true
      case ProbationOver => probation != []
      case Done(k, _, _) => k < |grants|
      case Requested(_, procs, _) => procs >= 1
      case Started(ms, failures) => |ms| + failures <= starting && New(ms, health)
      case Stopped(m) => m in health && health[m] != Lost
    }
  }

  lemma Enough(missing: int, machprocs: nat)
    requires machprocs > 0
    ensures machprocs * ((missing + machprocs - 1) / machprocs) >= missing
  {
    var a := missing + machprocs - 1;
    assert a == machprocs * (a / machprocs) + a % machprocs;
  }

  /** The requests that events make, each cut down to what a machine has. */
  ghost function Asked(events: seq<Event>, machprocs: nat): multiset<Request> {
    if events == [] then multiset{}
    else
      var n := |events| - 1;
      Asked(events[..n], machprocs) +
      match events[n]
      case Requested(priority, procs, exclusive) =>
        if procs == 0 then multiset{}
        else multiset{Request(priority, if exclusive || procs > machprocs then machprocs else procs)}
      case _ => multiset{}
  }

  /** How many times granted procs were returned. */
  ghost function Returned(events: seq<Event>, views: seq<View>): nat
    requires |events| <= |views|
  {
    if events == [] then 0
    else
      var n := |events| - 1;
      Returned(events[..n], views) + if events[n].Done? && events[n].grant < |views[n].grants| then 1 else 0
  }

  /** Everything that was asked for is in line or was served, and what was served is in use or was returned. */
  ghost predicate Conserved(first: View, events: seq<Event>, views: seq<View>, served: seq<Request>, machprocs: nat)
    requires |views| == |events| + 1
  {
    && multiset(views[|events|].schedQ) + multiset(served) == multiset(first.schedQ) + Asked(events, machprocs)
    && |views[|events|].grants| + Returned(events, views) == |first.grants| + |served|
  }

  /** Machines that were stopped are lost. */
  ghost predicate StoppedAreLost(events: seq<Event>, views: seq<View>)
    requires |views| == |events| + 1
  {
    forall i, x :: 0 <= i < |events| && events[i] == Stopped(x) && x in views[i].health ==>
      x in views[|events|].health && views[|events|].health[x] == Lost
  }

  /** Machines that were started are known. */
  ghost predicate StartedAreKnown(events: seq<Event>, views: seq<View>)
    requires |views| == |events| + 1
  {
    forall i, x :: 0 <= i < |events| && events[i].Started? && views[i].Allows(events[i]) && x in events[i].machines ==>
      x in views[|events|].health
  }

  /** What an event does to requests, grants and lost machines; `more` is what was served. */
  ghost predicate Effect(v: View, e: Event, v': View, more: seq<Request>, machprocs: nat) {
    if !v.Allows(e) then v' == v && more == []
    else RequestsKept(v, e, v', more, machprocs) && MachinesKept(v.health, e, v'.health)
  }

  ghost predicate RequestsKept(v: View, e: Event, v': View, more: seq<Request>, machprocs: nat) {
    && multiset(v'.schedQ) + multiset(more) == multiset(v.schedQ) +
       (if e.Requested?
        then multiset{Request(e.priority, if e.exclusive || e.procs > machprocs then machprocs else e.procs)}
        else multiset{})
    && |v'.grants| + (if e.Done? then 1 else 0) == |v.grants| + |more|
  }

  ghost predicate MachinesKept(health: map<Id, Health>, e: Event, health': map<Id, Health>) {
    && (forall x :: x in health ==> x in health' && (health[x] == Lost ==> health'[x] == Lost))
    && (e.Stopped? ==> e.machine in health' && health'[e.machine] == Lost)
    && (e.Started? ==> forall x :: x in e.machines ==> x in health')
  }

  lemma NothingHappened(first: View, machprocs: nat)
    ensures Conserved(first, [], [first], [], machprocs)
    ensures StoppedAreLost([], [first]) && StartedAreKnown([], [first])
  {
  }

  lemma Happened(first: View, events: seq<Event>, views: seq<View>, served: seq<Request>, machprocs: nat,
                 e: Event, v': View, more: seq<Request>)
    requires |views| == |events| + 1 && Conserved(first, events, views, served, machprocs)
    requires StoppedAreLost(events, views) && StartedAreKnown(events, views)
    requires Effect(views[|events|], e, v', more, machprocs)
    ensures Conserved(first, events + [e], views + [v'], served + more, machprocs)
    ensures StoppedAreLost(events + [e], views + [v']) && StartedAreKnown(events + [e], views + [v'])
  {
    hide New, Asked, Returned;
    AskedNext(events, e, machprocs);
    ReturnedNext(events, e, views, v');
    var v, asked := views[|events|], Asked(events + [e], machprocs);
    assert multiset(served + more) == multiset(served) + multiset(more);
    assert multiset(v'.schedQ) + multiset(more) + Asked(events, machprocs) == multiset(v.schedQ) + asked;
    Balance(multiset(v.schedQ), multiset(v'.schedQ), multiset(served), multiset(more), multiset(first.schedQ),
            Asked(events, machprocs), asked);
    LostNext(events, views, machprocs, e, v', more);
  }

  lemma Balance<T>(q: multiset<T>, q': multiset<T>, served: multiset<T>, more: multiset<T>, first: multiset<T>,
                   asked: multiset<T>, asked': multiset<T>)
    requires q + served == first + asked && q' + more + asked == q + asked'
    ensures q' + (served + more) == first + asked'
  {
    forall x
      ensures (q' + (served + more))[x] == (first + asked')[x]
    {
      assert (q + served)[x] == (first + asked)[x] && (q' + more + asked)[x] == (q + asked')[x];
    }
  }

  lemma AskedNext(events: seq<Event>, e: Event, machprocs: nat)
    ensures Asked(events + [e], machprocs) == Asked(events, machprocs) +
            if e.Requested? && e.procs > 0
            then multiset{Request(e.priority, if e.exclusive || e.procs > machprocs then machprocs else e.procs)}
            else multiset{}
  {
    assert (events + [e])[..|events|] == events;
  }

  lemma ReturnedNext(events: seq<Event>, e: Event, views: seq<View>, v': View)
    requires |views| == |events| + 1
    ensures Returned(events + [e], views + [v']) ==
            Returned(events, views) + if e.Done? && e.grant < |views[|events|].grants| then 1 else 0
  {
    assert (events + [e])[..|events|] == events;
    ReturnedSame(events, views, v');
  }

  lemma {:induction false} ReturnedSame(events: seq<Event>, views: seq<View>, v': View)
    requires |events| <= |views|
    ensures Returned(events, views + [v']) == Returned(events, views)
  {
    if events != [] {
      ReturnedSame(events[..|events| - 1], views, v');
    }
  }

  lemma LostNext(events: seq<Event>, views: seq<View>, machprocs: nat, e: Event, v': View, more: seq<Request>)
    requires |views| == |events| + 1 && StoppedAreLost(events, views) && StartedAreKnown(events, views)
    requires Effect(views[|events|], e, v', more, machprocs)
    ensures StoppedAreLost(events + [e], views + [v']) && StartedAreKnown(events + [e], views + [v'])
  {
    hide New;
    var es, vs := events + [e], views + [v'];
    forall i, x | 0 <= i < |es| && es[i] == Stopped(x) && x in vs[i].health
      ensures x in v'.health && v'.health[x] == Lost
    {
      if i < |events| {
        assert events[i] == Stopped(x) && x in views[i].health;
      }
    }
    forall i, x | 0 <= i < |es| && es[i].Started? && vs[i].Allows(es[i]) && x in es[i].machines
      ensures x in v'.health
    {
      if i < |events| {
        assert events[i].Started? && views[i].Allows(events[i]);
      }
    }
  }

  /** An event that cannot happen now is skipped; any other one has its effect. */
  method Turn(m: Manager, e: Event) returns (ghost more: seq<Request>)
    requires m.Valid() && m.NotStuck()
    modifies m, m.pool
    ensures m.Valid() && m.NotStuck() && Effect(old(m.Now()), e, m.Now(), more, m.machprocs)
  {
    hide Balanced, IsHeap, m.pool.Valid, m.NotStuck, New, Ceil, Scaled;
    ghost var v := m.Now();
    more := [];
    if m.Now().Allows(e) {
      m.Step(e);
      if |m.grants| > |v.grants| && e.Offered? {
        more := [v.schedQ[0]];
      }
      assert RequestsKept(v, e, m.Now(), more, m.machprocs) by {
        hide MachinesKept;
      }
      assert MachinesKept(v.health, e, m.Now().health) by {
        hide RequestsKept;
      }
    }
  }

  /**
   Every run of the event loop: accounts balance, machines are where they
   belong, their number stays within the limit, and the queue is never stuck.
   No request is dropped, and no event is.
   */
  method Do(m: Manager, events: seq<Event>) returns (ghost views: seq<View>, ghost served: seq<Request>)
    requires m.Valid() && m.NotStuck()
    modifies m, m.pool
    ensures m.Valid() && m.NotStuck()
    ensures m.need == Queued(m.schedQ) + Granted(m.grants)
    ensures forall x :: x in m.taskProcs ==> 0 <= m.taskProcs[x] == GrantedOn(m.grants, x) <= m.machprocs
    ensures |m.pool.machines| + |m.pool.probation| + m.starting <= Ceil(m.maxp, m.machprocs)
    ensures forall x :: x in m.pool.health ==>
              x in m.pool.index && PlacedAt(m.pool.machines, m.pool.probation, m.pool.health, m.pool.index, x)
    ensures |views| == |events| + 1 && views[0] == old(m.Now()) && views[|events|] == m.Now()
    ensures Conserved(old(m.Now()), events, views, served, m.machprocs)
    ensures StoppedAreLost(events, views) && StartedAreKnown(events, views)
  {
    hide Balanced, IsHeap, m.pool.Valid, m.NotStuck, New, Ceil, Conserved, StoppedAreLost, StartedAreKnown, Effect;
    views, served := [m.Now()], [];
    NothingHappened(m.Now(), m.machprocs);
    for i := 0 to |events|
      invariant m.Valid() && m.NotStuck() && |views| == i + 1 && views[0] == old(m.Now()) && views[i] == m.Now()
      invariant Conserved(old(m.Now()), events[..i], views, served, m.machprocs)
      invariant StoppedAreLost(events[..i], views) && StartedAreKnown(events[..i], views)
    {
      assert events[..i + 1] == events[..i] + [events[i]];
      ghost var more := Turn(m, events[i]);
      Happened(old(m.Now()), events[..i], views, served, m.machprocs, events[i], m.Now(), more);
      views, served := views + [m.Now()], served + more;
    }
    assert events[..|events|] == events;
    Facts(m);
  }

  lemma Facts(m: Manager)
    requires m.Valid()
    ensures m.need == Queued(m.schedQ) + Granted(m.grants)
    ensures forall x :: x in m.taskProcs ==> 0 <= m.taskProcs[x] == GrantedOn(m.grants, x) <= m.machprocs
    ensures |m.pool.machines| + |m.pool.probation| + m.starting <= Ceil(m.maxp, m.machprocs)
    ensures forall x :: x in m.pool.health ==>
              x in m.pool.index && PlacedAt(m.pool.machines, m.pool.probation, m.pool.health, m.pool.index, x)
  {
  }

  lemma SomeThere(machprocs: nat, count: nat)
    ensures machprocs * count >= 1 ==> count >= 1
  {
  }

  /** Distinct machines that are not known yet. */
  predicate New(machines: seq<Id>, health: map<Id, Health>) {
    && (forall i :: 0 <= i < |machines| ==> machines[i] !in health)
    && (forall i, j :: 0 <= i < j < |machines| ==> machines[i] != machines[j])
  }

  lemma NewRest(machines: seq<Id>, health: map<Id, Health>)
    requires New(machines, health)
    ensures New(machines[0..], health)
  {
  }

  lemma NewNext(machines: seq<Id>, health: map<Id, Health>, m: Id)
    requires New(machines, health) && machines != [] && m == machines[0]
    ensures m !in health && New(machines[1..], health[m := Ok])
  {
  }
}
