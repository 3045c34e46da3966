/**
 What happens during an evaluation (exec/eval.go), one event at a time.

 Executors and machines move task states at will (`Move`); the goroutine that
 watches a submitted task notices that it left the executor, keeps the loss
 counter and gives up after too many losses (`Settle`); the loop receives a
 finished task (`Deliver`). Events that cannot happen in the current state are
 skipped, so every script of events stands for a possible run and every run has
 a script.
 */
module Evaluation {
  import opened TaskGraph
  import opened Waitlist
  import opened Evaluator

  /** A task lost this many times in a row is considered failed. */
  const MAX_CONSECUTIVE_LOST: nat := 5

  /** Changes name the tasks whose state becomes another one; a delivery may come with some as well. */
  datatype Event =
    | Move(changes: map<Task, TaskState>)
    | Settle(task: Task)
    | Deliver(task: Task, changes: map<Task, TaskState>)

  /** The task states after some changes. */
  function Overlay(st: map<Task, TaskState>, changes: map<Task, TaskState>): map<Task, TaskState> {
    map t | t in st :: if t in changes then changes[t] else st[t]
  }

  /** No finished result is lost by the move. */
  predicate StaysOk(st: map<Task, TaskState>, later: map<Task, TaskState>) {
    forall t :: t in st && t in later && st[t].Ok? ==> later[t].Ok?
  }

  /** What an evaluation knows about submitted tasks. */
  datatype Ledger = Ledger(
    waiting: set<Task>,               // watched by a goroutine
    donec: set<Task>,                 // sent to the loop, not received
    consecutiveLost: map<Task, nat>,
    submitted: multiset<Task>,
    returned: multiset<Task>)

  /** The submissions of t are accounted for by its losses. */
  ghost predicate Bounded(s: Snap, l: Ledger, t: Task)
    requires t in s.st && t in l.consecutiveLost
  {
    if t in l.waiting then
      l.submitted[t] == l.consecutiveLost[t] + 1 && l.consecutiveLost[t] < MAX_CONSECUTIVE_LOST
    else if s.st[t].Live() then
      l.submitted[t] == l.consecutiveLost[t] && l.consecutiveLost[t] < MAX_CONSECUTIVE_LOST
    else
      l.submitted[t] <= MAX_CONSECUTIVE_LOST
  }

  /** Every pending task is watched or on its way back, and every other submission was returned. */
  ghost predicate Tallied(s: Snap, l: Ledger) {
    && s.pending <= s.st.Keys
    && l.waiting !! l.donec && l.waiting + l.donec == s.pending
    && (forall t :: t in l.donec && t in s.st ==> !s.st[t].InFlight())
    && (forall t :: l.returned[t] + (if t in s.pending then 1 else 0) == l.submitted[t])
    && (forall t :: t in l.submitted ==> t in s.st)
  }

  ghost predicate Accounts(s: Snap, l: Ledger, stable: bool) {
    && l.consecutiveLost.Keys == s.st.Keys
    && Tallied(s, l)
    && (stable ==> forall t :: t in s.st ==> Bounded(s, l, t))
    && (stable ==> forall t :: t in s.seenOk ==> t in s.st && s.st[t].Ok?)
  }

  lemma {:induction false} MultisetBound(m: multiset<Task>, ts: set<Task>, n: nat)
    requires forall t :: t in m ==> t in ts
    requires forall t :: m[t] <= n
    ensures |m| <= n * |ts|
  {
    if ts != {} {
      var t :| t in ts;
      MultisetBound(m[t := 0], ts - {t}, n);
      assert |m| == |m[t := 0]| + m[t];
    } else {
      assert m == multiset{};
    }
  }

  /** A multiset that reaches the bound reaches it everywhere. */
  lemma MultisetFull(m: multiset<Task>, ts: set<Task>, n: nat)
    requires forall t :: t in m ==> t in ts
    requires forall t :: m[t] <= n
    requires |m| == n * |ts|
    ensures forall t :: t in ts ==> m[t] == n
  {
    forall t | t in ts
      ensures m[t] == n
    {
      MultisetBound(m[t := 0], ts - {t}, n);
      assert |m| == |m[t := 0]| + m[t];
      assert n * |ts| == n * |ts - {t}| + n;
    }
  }

  /** Bounded retries: nothing is submitted more than five times, so there are at most five returns per task. */
  lemma RetriesBounded(s: Snap, l: Ledger)
    requires Accounts(s, l, true)
    ensures forall t :: l.submitted[t] <= MAX_CONSECUTIVE_LOST
    ensures |l.returned| <= MAX_CONSECUTIVE_LOST * |s.st|
  {
    forall t
      ensures l.submitted[t] <= MAX_CONSECUTIVE_LOST
    {
      if t in l.submitted {
        assert Bounded(s, l, t);
      }
    }
    MultisetBound(l.returned, s.st.Keys, MAX_CONSECUTIVE_LOST);
  }

  /** Once every task has been returned five times there is nothing left to do. */
  lemma AllReturned(g: Graph, s: Snap, l: Ledger)
    requires Shape(g, s) && Accounts(s, l, true) && |l.returned| == MAX_CONSECUTIVE_LOST * |s.st|
    ensures s.todo == {} && s.pending == {}
  {
    hide g.WellFormed, Bounded;
    RetriesBounded(s, l);
    MultisetFull(l.returned, s.st.Keys, MAX_CONSECUTIVE_LOST);
    assert forall t :: t in s.pending ==> l.returned[t] < l.submitted[t];
    forall t | t in s.todo
      ensures false
    {
      QueuedAgain(g, s, l, t);
    }
  }

  lemma QueuedAgain(g: Graph, s: Snap, l: Ledger, t: Task)
    requires Shape(g, s) && Accounts(s, l, true) && t in s.todo
    ensures l.returned[t] < MAX_CONSECUTIVE_LOST
  {
    hide g.WellFormed;
    LaunchFacts(g, s, l);
    assert Bounded(s, l, t) && t !in s.pending;
  }

  /** Handing out all queued tasks. */
  ghost predicate Launched(s: Snap, s': Snap, l: Ledger, l': Ledger) {
    && s' == s.(todo := {}, pending := s.pending + s.todo, st := s'.st)
    && s'.st.Keys == s.st.Keys
    && (forall t :: t in s.st ==> s'.st[t] == if t in s.todo then TaskState.Waiting else s.st[t])
    && l' == l.(waiting := l.waiting + s.todo, submitted := l'.submitted)
    && forall t :: l'.submitted[t] == l.submitted[t] + if t in s.todo then 1 else 0
  }

  lemma LaunchKeeps(g: Graph, s: Snap, s': Snap, l: Ledger, l': Ledger, roots: set<Task>, stable: bool)
    requires Inv(g, s, roots, false) && Accounts(s, l, stable) && Launched(s, s', l, l')
    ensures Inv(g, s', roots, false) && Accounts(s', l', stable)
  {
    hide Accounts, Launched, Budgeted, RootsCovered;
    LaunchCovers(g, s, s', l, l', roots);
    LaunchAccounts(g, s, s', l, l', stable);
  }

  lemma LaunchAccounts(g: Graph, s: Snap, s': Snap, l: Ledger, l': Ledger, stable: bool)
    requires Shape(g, s) && Accounts(s, l, stable) && Launched(s, s', l, l')
    ensures Accounts(s', l', stable)
  {
    hide g.WellFormed, Bounded, Tallied;
    LaunchTallied(g, s, s', l, l');
    LaunchFacts(g, s, l);
    forall t | t in s'.st && stable
      ensures Bounded(s', l', t)
    {
      assert Bounded(s, l, t);
      LaunchBounded(s, s', l, l', t);
    }
  }

  lemma LaunchTallied(g: Graph, s: Snap, s': Snap, l: Ledger, l': Ledger)
    requires Shape(g, s) && Tallied(s, l) && Launched(s, s', l, l')
    ensures Tallied(s', l')
  {
    hide g.WellFormed;
    assert forall t :: t in s.todo ==> t !in s.pending;
  }

  lemma LaunchFacts(g: Graph, s: Snap, l: Ledger)
    requires Shape(g, s) && Tallied(s, l)
    ensures forall t :: t in s.todo ==> t in s.st && s.st[t].Live() && t !in l.waiting
  {
    hide g.WellFormed;
    assert forall t :: t in l.waiting ==> t in s.pending;
  }

  lemma LaunchBounded(s: Snap, s': Snap, l: Ledger, l': Ledger, t: Task)
    requires t in s.st && t in l.consecutiveLost && Launched(s, s', l, l') && Bounded(s, l, t)
    requires t in s.todo ==> s.st[t].Live() && t !in l.waiting
    ensures Bounded(s', l', t)
  {
  }

  lemma LaunchCovers(g: Graph, s: Snap, s': Snap, l: Ledger, l': Ledger, roots: set<Task>)
    requires Inv(g, s, roots, false) && Launched(s, s', l, l')
    ensures Inv(g, s', roots, false)
  {
    hide Budgeted, g.WellFormed;
    assert forall h, d :: Waits(s, h, d) == Waits(s', h, d);
    assert Outstanding(s, {}) <= Outstanding(s', {});
    BudgetsLast(g, s, s', {}, {});
  }

  lemma MoveKeeps(g: Graph, s: Snap, later: map<Task, TaskState>, l: Ledger, roots: set<Task>, stable: bool)
    requires Inv(g, s, roots, false) && Accounts(s, l, stable) && Drift(s, later)
    requires stable ==> StaysOk(s.st, later)
    ensures Inv(g, s.(st := later), roots, false) && Accounts(s.(st := later), l, stable)
  {
    hide *;
    DriftInv(g, s, later, roots, false);
    MoveAccounts(s, later, l, stable);
  }

  lemma MoveAccounts(s: Snap, later: map<Task, TaskState>, l: Ledger, stable: bool)
    requires Accounts(s, l, stable) && Drift(s, later)
    requires stable ==> StaysOk(s.st, later)
    ensures Accounts(s.(st := later), l, stable)
  {
    forall t | t in s.st && stable
      ensures Bounded(s.(st := later), l, t)
    {
      assert Bounded(s, l, t);
    }
  }

  /** The effect of the watching goroutine on a task that left the executor. */
  ghost predicate Settled(s: Snap, s': Snap, l: Ledger, l': Ledger, t: Task)
    requires t in s.st && t in l.consecutiveLost
  {
    var losses := if s.st[t].Ok? then 0 else if s.st[t].Lost? then l.consecutiveLost[t] + 1 else l.consecutiveLost[t];
    && l' == l.(waiting := l.waiting - {t}, donec := l.donec + {t}, consecutiveLost := l.consecutiveLost[t := losses])
    && s' == s.(st := if s.st[t].Lost? && losses >= MAX_CONSECUTIVE_LOST then s.st[t := Err] else s.st)
  }

  lemma SettleKeeps(g: Graph, s: Snap, s': Snap, l: Ledger, l': Ledger, roots: set<Task>, stable: bool, t: Task)
    requires Inv(g, s, roots, false) && Accounts(s, l, stable)
    requires t in l.waiting && !s.st[t].InFlight() && Settled(s, s', l, l', t)
    ensures Inv(g, s', roots, false) && Accounts(s', l', stable)
  {
    SettleCovers(g, s, s', roots, t);
    SettleAccounts(s, s', l, l', stable, t);
  }

  lemma SettleAccounts(s: Snap, s': Snap, l: Ledger, l': Ledger, stable: bool, t: Task)
    requires Accounts(s, l, stable) && t in l.waiting && t in s.st
    requires !s.st[t].InFlight() && !s.st[t].Init? && Settled(s, s', l, l', t)
    ensures Accounts(s', l', stable)
  {
    forall u | u in s'.st && stable
      ensures Bounded(s', l', u)
    {
      assert Bounded(s, l, u);
    }
  }

  /** Failing a pending task keeps it outstanding until it is returned. */
  lemma SettleCovers(g: Graph, s: Snap, s': Snap, roots: set<Task>, t: Task)
    requires Inv(g, s, roots, false) && t in s.pending && t in s.st
    requires s' == s || s' == s.(st := s.st[t := Err])
    ensures Inv(g, s', roots, false)
  {
    hide Budgeted, g.WellFormed;
    assert forall h, d :: Waits(s, h, d) == Waits(s', h, d);
    assert Outstanding(s, {}) <= Outstanding(s', {});
    BudgetsLast(g, s, s', {}, {});
  }

  lemma DeliverKeeps(s: Snap, s': Snap, l: Ledger, l': Ledger, stable: bool, t: Task)
    requires Accounts(s, l, stable) && t in l.donec
    requires s'.pending == s.pending - {t}
    requires l' == l.(donec := l.donec - {t}, returned := l.returned + multiset{t})
    requires MayBecome(s.st, s'.pending, s'.st) && (stable ==> StaysOk(s.st, s'.st))
    requires forall u :: u in s'.seenOk ==>
               u in s.seenOk || (u == t && u in s.st && s.st[u].Ok?) || (u in s'.st && s'.st[u].Ok?)
    ensures Accounts(s', l', stable)
  {
    forall u | u in s'.st && stable
      ensures Bounded(s', l', u)
    {
      assert Bounded(s, l, u);
    }
  }

  lemma StartEvaluation(g: Graph, s: Snap)
    requires g.WellFormed() && s.st.Keys == g.nodes.Keys
    requires forall t :: t in s.st ==> s.st[t].Live() || s.st[t].Ok?
    requires s == Snap(map[], map[], {}, {}, s.st, {})
    ensures RoundFor(g, s, map[], {}, {})
  {
  }

  lemma RootsEnqueued(g: Graph, s0: Snap, s: Snap, wait: map<Task, int>, roots: seq<Task>)
    requires RoundFor(g, s, wait, {}, {}) && (forall r :: r in roots ==> r in g.nodes)
    requires Grows(g, s0, s, map[], wait, {}) && (forall t :: t in s0.st ==> !s0.st[t].Err?) && s0.pending == {}
    requires forall r :: r in roots ==> g.Head(r) in wait
    ensures Inv(g, s, Elems(roots), false) && s.st == s0.st && s.pending == {} && Saw(s0, s) && ReadyOnly(g, s0, s)
  {
    forall r | r in roots
      ensures r in s.seenOk || r in Outstanding(s, {})
    {
      assert Answered(g, s, g.Head(r), wait[g.Head(r)]);
      PhaseFacts(g, r);
    }
  }

  lemma TodoFacts(g: Graph, s: Snap, roots: set<Task>)
    requires Inv(g, s, roots, false)
    ensures forall tasks: seq<Task> :: Elems(tasks) == s.todo ==> forall t :: t in tasks ==> t in s.st && s.st[t].Live()
  {
    forall tasks: seq<Task> | Elems(tasks) == s.todo
      ensures forall t :: t in tasks ==> t in s.st && s.st[t].Live()
    {
      assert forall t :: t in tasks ==> t in Elems(tasks);
    }
  }

  /** The task states after handing out some tasks. */
  function Handed(st: map<Task, TaskState>, tasks: seq<Task>): map<Task, TaskState> {
    map t | t in st :: if t in tasks then TaskState.Waiting else st[t]
  }

  lemma HandedOut(s: Snap, s': Snap, l: Ledger, l': Ledger, tasks: seq<Task>)
    requires Elems(tasks) == s.todo && Distinct(tasks)
    requires s' == s.(todo := {}, pending := s.pending + s.todo, st := Handed(s.st, tasks))
    requires l' == l.(waiting := l.waiting + Elems(tasks), submitted := l.submitted + multiset(tasks))
    ensures Launched(s, s', l, l')
  {
    assert forall t :: t in tasks <==> t in Elems(tasks);
    OneEach(tasks);
  }

  lemma {:induction false} OneEach(tasks: seq<Task>)
    requires Distinct(tasks)
    ensures forall t :: multiset(tasks)[t] == if t in tasks then 1 else 0
  {
    if tasks != [] {
      var n := |tasks| - 1;
      assert tasks == tasks[..n] + [tasks[n]];
      OneEach(tasks[..n]);
    }
  }

  /** Marks each task as waiting for an executor, reviving lost ones. */
  method Submit(st: map<Task, TaskState>, tasks: seq<Task>, waiting: set<Task>, ghost submitted: multiset<Task>)
    returns (st': map<Task, TaskState>, waiting': set<Task>, ghost submitted': multiset<Task>)
    requires Distinct(tasks) && forall t :: t in tasks ==> t in st && st[t].Live()
    ensures st' == Handed(st, tasks)
    ensures waiting' == waiting + Elems(tasks)
    ensures submitted' == submitted + multiset(tasks)
  {
    st', waiting', submitted' := st, waiting, submitted;
    for i := 0 to |tasks|
      invariant st' == Handed(st, tasks[..i])
      invariant waiting' == waiting + Elems(tasks[..i]) && submitted' == submitted + multiset(tasks[..i])
    {
      var task := tasks[i];
      assert task !in tasks[..i];
      assert tasks[..i + 1] == tasks[..i] + [task];
      if st'[task].Lost? {
        st' := st'[task := Init];
      }
      if st'[task].Init? {
        st' := st'[task := TaskState.Waiting];
        submitted' := submitted' + multiset{task};
      }
      waiting' := waiting' + {task};
    }
    assert tasks[..|tasks|] == tasks;
  }

  lemma MoveAllowed(s: Snap, later: map<Task, TaskState>)
    requires MayBecome(s.st, s.pending, later)
    ensures Drift(s, later)
  {
  }

  lemma StandStill(st: map<Task, TaskState>, pending: set<Task>)
    ensures MayBecome(st, pending, st) && StaysOk(st, st)
  {
  }

  lemma BooksFacts(g: Graph, s: Snap, l: Ledger, roots: set<Task>, stable: bool)
    requires Inv(g, s, roots, false) && Accounts(s, l, stable)
    ensures s.pending <= s.st.Keys && l.consecutiveLost.Keys == s.st.Keys && s.st.Keys == g.nodes.Keys
    ensures l.waiting <= s.pending && l.donec <= s.pending
    ensures forall t :: t in s.pending ==> !s.st[t].Init?
    ensures forall t :: t in l.donec ==> !s.st[t].InFlight()
  {
    assert l.waiting <= l.waiting + l.donec;
  }

  lemma Conclude(g: Graph, s: Snap, l: Ledger, roots: seq<Task>, err: bool, stable: bool)
    requires Inv(g, s, Elems(roots), err) && Accounts(s, l, stable)
    ensures !err && s.todo == {} && s.pending == {} ==> forall r :: r in roots ==> r in s.seenOk
    ensures !err && s.todo == {} && s.pending == {} && stable ==> forall r :: r in roots ==> r in s.st && s.st[r].Ok?
    ensures stable ==> forall t :: l.submitted[t] <= MAX_CONSECUTIVE_LOST
    ensures stable ==> |l.returned| <= MAX_CONSECUTIVE_LOST * |g.nodes|
    ensures stable && |l.returned| == MAX_CONSECUTIVE_LOST * |g.nodes| ==> s.todo == {} && s.pending == {}
  {
    if stable {
      RetriesBounded(s, l);
      assert |s.st| == |s.st.Keys| && |g.nodes| == |g.nodes.Keys|;
      if |l.returned| == MAX_CONSECUTIVE_LOST * |g.nodes| {
        AllReturned(g, s, l);
      }
    }
    if !err && s.todo == {} && s.pending == {} {
      IdleMeansRootsOk(g, s, Elems(roots));
      forall r | r in roots
        ensures r in s.seenOk
      {
        assert r in Elems(roots);
      }
    }
  }

  /** An evaluation at one moment. */
  datatype Moment = Moment(s: Snap, l: Ledger, err: bool) {
    ghost predicate Over() {
      err || (s.todo == {} && s.pending == {})
    }
  }

  /** The changes are within what executors and machines may do to tasks. */
  ghost predicate Allowed(s: Snap, pending: set<Task>, changes: map<Task, TaskState>, stable: bool) {
    MayBecome(s.st, pending, Overlay(s.st, changes)) && (stable ==> StaysOk(s.st, Overlay(s.st, changes)))
  }

  /** The effect of an event. */
  ghost predicate Took(m: Moment, e: Event, m': Moment, stable: bool) {
    match e
    case Move(changes) =>
      m' == if Allowed(m.s, m.s.pending, changes, stable)
            then m.(s := m.s.(st := Overlay(m.s.st, changes))) else m
    case Settle(t) =>
      if t in m.l.waiting && t in m.s.st && t in m.l.consecutiveLost && !m.s.st[t].InFlight()
      then Settled(m.s, m'.s, m.l, m'.l, t) && m'.err == m.err
      else m' == m
    case Deliver(t, changes) =>
      if t in m.l.donec && t in m.s.st && Allowed(m.s, m.s.pending - {t}, changes, stable)
      then && m'.l == m.l.(donec := m.l.donec - {t}, returned := m.l.returned + multiset{t})
           && m'.s.pending == m.s.pending - {t} && m'.err == m.s.st[t].Err?
           && m'.s.st == if m'.err then m.s.st else Overlay(m.s.st, changes)
      else m' == m
  }

  lemma NothingQueued(g: Graph, s: Snap, s': Snap)
    requires s'.todo <= s.todo
    ensures ReadyOnly(g, s, s')
  {
  }

  class Evaluation {
    const s: State
    // stable says that finished results are never lost during this evaluation.
    const stable: bool
    ghost const roots: set<Task>
    var waiting: set<Task>
    var donec: set<Task>
    var consecutiveLost: map<Task, nat>
    ghost var submitted: multiset<Task>
    ghost var returned: multiset<Task>

    ghost function Books(): Ledger
      reads this
    {
      Ledger(waiting, donec, consecutiveLost, submitted, returned)
    }

    ghost function Now(): Moment
      reads this, s
    {
      Moment(s.Now(), Books(), s.err)
    }

    ghost predicate Valid()
      reads this, s
    {
      && Inv(s.g, s.Now(), roots, s.err)
      && Accounts(s.Now(), Books(), stable)
    }

    /** Enqueues the roots. No task starts out failed or in the hands of another evaluator. */
    constructor (g: Graph, st: map<Task, TaskState>, roots: seq<Task>, stable: bool)
      requires g.WellFormed() && st.Keys == g.nodes.Keys && (forall r :: r in roots ==> r in g.nodes)
      requires forall t :: t in st ==> st[t].Live() || st[t].Ok?
      ensures Valid() && fresh(s) && s.g == g && !s.err
      ensures this.roots == Elems(roots) && this.stable == stable
      ensures submitted == multiset{} && returned == multiset{}
      ensures forall t :: t in consecutiveLost ==> consecutiveLost[t] == 0
      ensures s.st == st && s.pending == {} && ReadyOnly(g, Snap(map[], map[], {}, {}, st, {}), s.Now())
    {
      hide Inv, RoundFor, Grows, Outstanding, Round, g.WellFormed, ReadyOnly;
      s := new State(g, st);
      this.stable, this.roots := stable, Elems(roots);
      waiting, donec, submitted, returned := {}, {}, multiset{}, multiset{};
      consecutiveLost := map t | t in st :: 0;
      new;
      ghost var s0 := s.Now();
      StartEvaluation(g, s0);
      s.EnqueueAll(roots, {}, {});
      RootsEnqueued(g, s0, s.Now(), s.wait, roots);
    }

    /** Hands all runnable tasks to the executor. */
    method Dispatch()
      requires Valid() && !s.err
      modifies this, s
      ensures Valid() && !s.err
      ensures Launched(old(s.Now()), s.Now(), old(Books()), Books())
    {
      hide Inv, Accounts, Handed, Elems, Outstanding, Launched;
      ghost var s0, l0 := s.Now(), Books();
      TodoFacts(s.g, s0, roots);
      var tasks := s.Runnable();
      s.st, waiting, submitted := Submit(s.st, tasks, waiting, submitted);
      HandedOut(s0, s.Now(), l0, Books(), tasks);
      LaunchKeeps(s.g, s0, s.Now(), l0, Books(), roots, stable);
    }

    /** One event of a run; events that cannot happen now are skipped. */
    method Handle(event: Event)
      requires Valid() && !s.err
      modifies this, s
      ensures Valid() && Took(old(Now()), event, Now(), stable) && ReadyOnly(s.g, old(s.Now()), s.Now())
    {
      hide Inv, Accounts, Outstanding, StaysOk, MayBecome, ReadyOnly, Overlay;
      match event {
        case Move(changes) =>
          HandleMove(Overlay(s.st, changes));
        case Settle(task) =>
          HandleSettle(task);
        case Deliver(task, changes) =>
          HandleDeliver(task, Overlay(s.st, changes));
      }
      if s.todo <= old(s.todo) {
        NothingQueued(s.g, old(s.Now()), s.Now());
      }
    }

    /** Executors and machines change task states. */
    method HandleMove(later: map<Task, TaskState>)
      requires Valid() && !s.err
      modifies s
      ensures Valid() && s.err == old(s.err)
      ensures s.Now() == old(s.Now()).(st := s.st)
      ensures s.st == if old(MayBecome(s.st, s.pending, later) && (stable ==> StaysOk(s.st, later))) then later
              else old(s.st)
    {
      hide Inv, Accounts, Outstanding, StaysOk, MayBecome;
      if MayBecome(s.st, s.pending, later) && (stable ==> StaysOk(s.st, later)) {
        MoveAllowed(s.Now(), later);
        MoveKeeps(s.g, s.Now(), later, Books(), roots, stable);
        s.st := later;
      }
    }

    /** The goroutine watching a task sees that it left the executor. */
    method HandleSettle(task: Task)
      requires Valid() && !s.err
      modifies this, s
      ensures Valid() && s.err == old(s.err)
      ensures if old(task in waiting && task in s.st && task in consecutiveLost && !s.st[task].InFlight())
              then Settled(old(s.Now()), s.Now(), old(Books()), Books(), task)
              else s.Now() == old(s.Now()) && Books() == old(Books())
    {
      hide Inv, Accounts, Outstanding, MayBecome;
      ghost var s0, l0 := s.Now(), Books();
      BooksFacts(s.g, s0, l0, roots, stable);
      if task !in waiting || s.st[task].InFlight() {
        return;
      }
      match s.st[task] {
        case Ok =>
          consecutiveLost := consecutiveLost[task := 0];
        case Lost =>
          consecutiveLost := consecutiveLost[task := consecutiveLost[task] + 1];
          if consecutiveLost[task] >= MAX_CONSECUTIVE_LOST {
            s.st := s.st[task := Err];
          }
        case _ =>
      }
      waiting, donec := waiting - {task}, donec + {task};
      assert l0.consecutiveLost[task := l0.consecutiveLost[task]] == l0.consecutiveLost;
      SettleKeeps(s.g, s0, s.Now(), l0, Books(), roots, stable, task);
    }

    /** The evaluation loop receives a finished task. */
    method HandleDeliver(task: Task, later: map<Task, TaskState>)
      requires Valid() && !s.err
      modifies this, s
      ensures Valid()
      ensures if old(&& task in donec && task in s.st && MayBecome(s.st, s.pending - {task}, later)
                     && (stable ==> StaysOk(s.st, later)))
              then && Books() == old(Books()).(donec := old(donec) - {task}, returned := old(returned) + multiset{task})
                   && s.pending == old(s.pending) - {task} && s.err == old(s.st)[task].Err?
                   && s.st == (if s.err then old(s.st) else later) && ReadyOnly(s.g, old(s.Now()), s.Now())
              else s.Now() == old(s.Now()) && Books() == old(Books()) && s.err == old(s.err)
    {
      hide Inv, Accounts, Outstanding, StaysOk, MayBecome, ReadyOnly;
      ghost var s0, l0 := s.Now(), Books();
      BooksFacts(s.g, s0, l0, roots, stable);
      if task !in donec || !MayBecome(s.st, s.pending - {task}, later) || (stable && !StaysOk(s.st, later)) {
        return;
      }
      donec := donec - {task};
      returned := returned + multiset{task};
      s.Return(task, later, roots);
      StandStill(s0.st, s.pending);
      DeliverKeeps(s0, s.Now(), l0, Books(), stable, task);
    }
  }
}
