/**
 The waitlist invariant of the evaluator (exec/eval.go).

 `counts[d]` says how many completions task d still waits for. The counts may
 be stale in both directions of time: a task can be recorded as waiting after
 its dependencies were lost while it was already queued, and entries of `deps`
 survive the run of the waiting task. What every step keeps is an inequality:
 a count never exceeds the number of tasks, in the phases it was recorded
 against, that are still going to complete.
 */
module Waitlist {
  import opened TaskGraph

  /** The evaluator's bookkeeping at one moment, together with the task states. */
  datatype Snap = Snap(
    deps: map<Task, set<Task>>,
    counts: map<Task, int>,
    todo: set<Task>,
    pending: set<Task>,
    st: map<Task, TaskState>,
    seenOk: set<Task>)

  /** Task d is recorded in the waitlist of phase h. */
  ghost predicate Waits(s: Snap, h: Task, d: Task) {
    h in s.deps && d in s.deps[h]
  }

  ghost predicate Waiting(s: Snap, t: Task) {
    t in s.counts && s.counts[t] >= 1
  }

  ghost function Unfinished(s: Snap): set<Task> {
    set t | t in s.st && !s.st[t].Finished()
  }

  /**
   The tasks that are still going to complete: queued, submitted, or waiting
   and not finished. `x` holds tasks that are being traversed right now.
   */
  ghost function Outstanding(s: Snap, x: set<Task>): set<Task> {
    s.todo + s.pending + x + (set t | t in s.st && Waiting(s, t) && s.st[t].Live())
  }

  /** Everything that holds of the bookkeeping besides the counts. */
  ghost predicate Shape(g: Graph, s: Snap) {
    && g.WellFormed()
    && s.st.Keys == g.nodes.Keys
    && s.todo <= g.nodes.Keys && s.pending <= g.nodes.Keys && s.todo !! s.pending
    && (forall h, d :: Waits(s, h, d) ==> d in g.nodes && h in g.Deps(d))
    && s.counts.Keys <= g.nodes.Keys
    && (forall t :: t in s.todo ==> s.st[t].Live())
    && (forall t :: t in s.pending ==> !s.st[t].Init?)
    && (forall t :: t in g.nodes && t !in s.pending ==> !s.st[t].InFlight())
  }

  /** The completions that task d can still count on, over its first i dependencies. */
  ghost function BudgetTo(g: Graph, s: Snap, d: Task, x: set<Task>, i: nat): nat
    requires g.WellFormed() && d in g.nodes && i <= |g.Deps(d)|
  {
    if i == 0 then 0 else
      var ds := g.Deps(d);
      assert g.DepsOk(d);
      BudgetTo(g, s, d, x, i - 1) +
      if ds[i - 1] !in ds[..i - 1] && Waits(s, ds[i - 1], d) then CountIn(g.Phase(ds[i - 1]), x) else 0
  }

  ghost function Budget(g: Graph, s: Snap, d: Task, x: set<Task>): nat
    requires g.WellFormed() && d in g.nodes
  {
    BudgetTo(g, s, d, x, |g.Deps(d)|)
  }

  /** The waitlist inequality. */
  ghost predicate Budgeted(g: Graph, s: Snap, x: set<Task>)
    requires Shape(g, s)
  {
    forall d :: d in s.counts ==> s.counts[d] <= Budget(g, s, d, Outstanding(s, x))
  }

  /** Every root has been seen complete, or is still going to complete. */
  ghost predicate RootsCovered(g: Graph, s: Snap, roots: set<Task>, x: set<Task>) {
    forall r :: r in roots ==> r in s.seenOk || r in Outstanding(s, x)
  }

  lemma {:induction false} BudgetMono(g: Graph, s: Snap, s': Snap, d: Task, x: set<Task>, x': set<Task>, i: nat)
    requires g.WellFormed() && d in g.nodes && i <= |g.Deps(d)|
    requires x <= x'
    requires forall h :: Waits(s, h, d) ==> Waits(s', h, d)
    ensures BudgetTo(g, s, d, x, i) <= BudgetTo(g, s', d, x', i)
  {
    if i > 0 {
      BudgetMono(g, s, s', d, x, x', i - 1);
      assert g.DepsOk(d);
      CountMono(g.Phase(g.Deps(d)[i - 1]), x, x');
    }
  }

  /** Completing task u takes at most one from the budget of the tasks waiting on its phase. */
  lemma {:induction false} BudgetMinusOne(g: Graph, s: Snap, d: Task, x: set<Task>, x': set<Task>, u: Task, i: nat)
    requires g.WellFormed() && d in g.nodes && u in g.nodes && i <= |g.Deps(d)|
    requires x - {u} <= x'
    ensures BudgetTo(g, s, d, x, i) <= BudgetTo(g, s, d, x', i) +
            if Waits(s, g.Head(u), d) && g.Head(u) in g.Deps(d)[..i] then 1 else 0
  {
    if i > 0 {
      BudgetMinusOne(g, s, d, x, x', u, i - 1);
      var h := g.Deps(d)[i - 1];
      assert g.DepsOk(d);
      PhaseFacts(g, h);
      PhaseFacts(g, u);
      CountMinusOne(g.Phase(h), x, x', u);
      assert g.Deps(d)[..i] == g.Deps(d)[..i - 1] + [h];
      if h == g.Head(u) {
        assert u in g.Phase(h);
      } else {
        assert u !in g.Phase(h);
      }
    }
  }

  /** Recording d against phase h, for the first time, adds the phase's outstanding tasks to its budget. */
  lemma {:induction false} BudgetAdd(g: Graph, s: Snap, s': Snap, d: Task, x: set<Task>, h: Task, i: nat)
    requires g.WellFormed() && d in g.nodes && h in g.nodes && i <= |g.Deps(d)|
    requires !Waits(s, h, d) && Waits(s', h, d)
    requires forall k :: k != h ==> (Waits(s, k, d) <==> Waits(s', k, d))
    ensures h in g.Deps(d)[..i] ==> BudgetTo(g, s', d, x, i) == BudgetTo(g, s, d, x, i) + CountIn(g.Phase(h), x)
    ensures h !in g.Deps(d)[..i] ==> BudgetTo(g, s', d, x, i) == BudgetTo(g, s, d, x, i)
  {
    hide g.WellFormed, CountIn;
    if i > 0 {
      BudgetAdd(g, s, s', d, x, h, i - 1);
      assert g.Deps(d)[..i] == g.Deps(d)[..i - 1] + [g.Deps(d)[i - 1]];
    }
  }

  /** Without entries in waitlists there is nothing to count on. */
  lemma {:induction false} BudgetNone(g: Graph, s: Snap, d: Task, x: set<Task>, i: nat)
    requires g.WellFormed() && d in g.nodes && i <= |g.Deps(d)| && forall h :: !Waits(s, h, d)
    ensures BudgetTo(g, s, d, x, i) == 0
  {
    if i > 0 {
      BudgetNone(g, s, d, x, i - 1);
    }
  }

  /** A positive budget names a phase with an outstanding task. */
  lemma {:induction false} BudgetWitness(g: Graph, s: Snap, d: Task, x: set<Task>, i: nat) returns (h: Task, u: Task)
    requires g.WellFormed() && d in g.nodes && i <= |g.Deps(d)|
    requires BudgetTo(g, s, d, x, i) > 0
    ensures h in g.Deps(d) && h in g.nodes && u in g.Phase(h) && u in x
  {
    var k := g.Deps(d)[i - 1];
    assert g.DepsOk(d);
    if k !in g.Deps(d)[..i - 1] && Waits(s, k, d) && CountIn(g.Phase(k), x) > 0 {
      h := k;
      u := CountWitness(g.Phase(k), x);
    } else {
      h, u := BudgetWitness(g, s, d, x, i - 1);
    }
  }

  /**
   No stall. When nothing is queued and nothing is submitted, no unfinished
   task is waiting: following its outstanding dependencies would descend the
   graph forever.
   */
  lemma {:induction false} NothingWaits(g: Graph, s: Snap, t: Task)
    requires Shape(g, s) && Budgeted(g, s, {})
    requires s.todo == {} && s.pending == {}
    requires t in g.nodes
    ensures t !in Outstanding(s, {})
    decreases g.rank(g.Head(t))
  {
    if t in Outstanding(s, {}) {
      var h, u := BudgetWitness(g, s, t, Outstanding(s, {}), |g.Deps(t)|);
      assert g.DepsOk(t);
      PhaseFacts(g, h);
      NothingWaits(g, s, u);
    }
  }

  /** No stall, for the roots: an idle evaluation without errors has seen every root complete. */
  lemma IdleMeansRootsOk(g: Graph, s: Snap, roots: set<Task>)
    requires Shape(g, s) && Budgeted(g, s, {}) && RootsCovered(g, s, roots, {})
    requires s.todo == {} && s.pending == {} && roots <= g.nodes.Keys
    ensures roots <= s.seenOk
  {
    forall r | r in roots
      ensures r in s.seenOk
    {
      NothingWaits(g, s, r);
    }
  }

  /** Without changes to the waitlists, the inequality lasts as long as no outstanding task gets away. */
  lemma BudgetsLast(g: Graph, s: Snap, s': Snap, x: set<Task>, x': set<Task>)
    requires Shape(g, s) && Shape(g, s') && Budgeted(g, s, x)
    requires s'.deps == s.deps && s'.counts == s.counts
    requires Outstanding(s, x) <= Outstanding(s', x')
    ensures Budgeted(g, s', x')
  {
    hide Outstanding;
    forall d | d in s'.counts
      ensures s'.counts[d] <= Budget(g, s', d, Outstanding(s', x'))
    {
      BudgetMono(g, s, s', d, Outstanding(s, x), Outstanding(s', x'), |g.Deps(d)|);
    }
  }

  // The environment: what executors and machines may do to task states.

  /**
   How the state of one task may move without the evaluator. Submitted tasks
   progress towards Ok, Err or Lost; results that are Ok can be lost at any time.
   */
  predicate Moves(inFlight: bool, from: TaskState, to: TaskState) {
    || from == to
    || (inFlight && from.InFlight() && !to.Init? && !to.Waiting?)
    || (from.Ok? && to.Lost?)
  }

  predicate MayBecome(st: map<Task, TaskState>, pending: set<Task>, later: map<Task, TaskState>) {
    && later.Keys == st.Keys
    && forall t :: t in st ==> Moves(t in pending, st[t], later[t])
  }

  ghost predicate Drift(s: Snap, later: map<Task, TaskState>) {
    MayBecome(s.st, s.pending, later)
  }

  /** Whatever the environment does, no outstanding task stops being outstanding. */
  lemma DriftKeeps(g: Graph, s: Snap, later: map<Task, TaskState>, x: set<Task>)
    requires Shape(g, s) && Drift(s, later)
    ensures Shape(g, s.(st := later))
    ensures Outstanding(s, x) <= Outstanding(s.(st := later), x)
    ensures Budgeted(g, s, x) ==> Budgeted(g, s.(st := later), x)
  {
    hide Budgeted;
    var s' := s.(st := later);
    DriftShape(g, s, s', x);
    if Budgeted(g, s, x) {
      BudgetsLast(g, s, s', x, x);
    }
  }

  lemma DriftShape(g: Graph, s: Snap, s': Snap, x: set<Task>)
    requires Shape(g, s) && Drift(s, s'.st) && s' == s.(st := s'.st)
    ensures Shape(g, s') && Outstanding(s, x) <= Outstanding(s', x)
  {
    hide g.WellFormed;
    assert forall h, d :: Waits(s, h, d) == Waits(s', h, d);
  }

  // The effect of one round of traversal.

  /** Task d's waitlist entries are the same in both snapshots. */
  ghost predicate SameWait(s: Snap, s': Snap, d: Task) {
    && (d in s.counts <==> d in s'.counts)
    && (d in s.counts ==> s.counts[d] == s'.counts[d])
    && forall h :: Waits(s, h, d) <==> Waits(s', h, d)
  }

  /** The memoized answer for the phase of h is its number of unfinished tasks, and all of them are outstanding. */
  ghost predicate Answered(g: Graph, s: Snap, h: Task, n: int) {
    && h in g.nodes && g.Head(h) == h
    && n == CountIn(g.Phase(h), Unfinished(s))
    && forall t :: t in g.Phase(h) && t in s.st ==>
         && (!s.st[t].Finished() ==> t in Outstanding(s, {}))
         && (s.st[t].Ok? ==> t in s.seenOk)
  }

  ghost predicate Round(g: Graph, s: Snap, wait: map<Task, int>, x: set<Task>) {
    && Shape(g, s)
    && Budgeted(g, s, x)
    && forall h :: h in wait ==> Answered(g, s, h, wait[h])
  }

  /** All tasks of the phase are finished. */
  ghost predicate PhaseDone(g: Graph, s: Snap, h: Task)
    requires h in g.nodes
  {
    CountIn(g.Phase(h), Unfinished(s)) == 0
  }

  /** Everything queued in this round was ready: each phase it depends on is finished. */
  ghost predicate ReadyOnly(g: Graph, s: Snap, s': Snap) {
    forall t, h :: t in s'.todo - s.todo && t in g.nodes && h in g.Deps(t) ==> h in g.nodes && PhaseDone(g, s', h)
  }

  /** Tasks are noted as seen complete only when they are. */
  ghost predicate Saw(s: Snap, s': Snap) {
    forall t :: t in s'.seenOk ==> t in s.seenOk || (t in s'.st && s'.st[t].Ok?)
  }

  /** What a traversal below rank r leaves alone, and what it only adds to. */
  ghost predicate Grows(g: Graph, s: Snap, s': Snap, wait: map<Task, int>, wait': map<Task, int>, x: set<Task>) {
    && s'.st == s.st && s'.pending == s.pending
    && s.todo <= s'.todo && s.seenOk <= s'.seenOk && Saw(s, s')
    && Outstanding(s, x) <= Outstanding(s', x)
    && (forall h :: h in wait ==> h in wait' && wait'[h] == wait[h])
    && ReadyOnly(g, s, s')
    && forall d :: d in g.nodes && g.Head(d) in wait ==> SameWait(s, s', d)
  }

  lemma GrowsTransitive(g: Graph, s0: Snap, s1: Snap, s2: Snap, w0: map<Task, int>, w1: map<Task, int>,
                        w2: map<Task, int>, x: set<Task>)
    requires Grows(g, s0, s1, w0, w1, x) && Grows(g, s1, s2, w1, w2, x)
    ensures Grows(g, s0, s2, w0, w2, x)
  {
    assert Unfinished(s1) == Unfinished(s2);
  }

  /** Answers given earlier in the round stay right. */
  lemma AnswersPersist(g: Graph, s: Snap, s': Snap, wait: map<Task, int>)
    requires Shape(g, s) && Shape(g, s')
    requires s'.st == s.st && s'.pending == s.pending && s.todo <= s'.todo && s.seenOk <= s'.seenOk
    requires forall h :: h in wait ==> Answered(g, s, h, wait[h])
    requires forall d :: d in g.nodes && g.Head(d) in wait ==> SameWait(s, s', d)
    ensures forall h :: h in wait ==> Answered(g, s', h, wait[h])
  {
    hide g.WellFormed, CountIn;
    assert Unfinished(s) == Unfinished(s');
    forall h | h in wait
      ensures Answered(g, s', h, wait[h])
    {
      PhaseFacts(g, h);
    }
  }

  // The elementary updates of a traversal.

  /** A step that keeps everyone's entries except those of t, which it leaves within budget. */
  lemma StepKeeps(g: Graph, s: Snap, s': Snap, wait: map<Task, int>, x: set<Task>, t: Task)
    requires Round(g, s, wait, x) && Shape(g, s') && t in g.nodes
    requires s'.st == s.st && s'.pending == s.pending && s.todo <= s'.todo && s.seenOk <= s'.seenOk
    requires Outstanding(s, x) <= Outstanding(s', x)
    requires forall d :: d in g.nodes && (d != t || g.Head(t) in wait) ==> SameWait(s, s', d)
    requires t in s'.counts ==> s'.counts[t] <= Budget(g, s', t, Outstanding(s', x))
    requires ReadyOnly(g, s, s') && Saw(s, s')
    ensures Round(g, s', wait, x) && Grows(g, s, s', wait, wait, x)
  {
    forall d | d in s'.counts
      ensures s'.counts[d] <= Budget(g, s', d, Outstanding(s', x))
    {
      if d != t {
        assert SameWait(s, s', d);
        BudgetMono(g, s, s', d, Outstanding(s, x), Outstanding(s', x), |g.Deps(d)|);
      }
    }
    AnswersPersist(g, s, s', wait);
  }

  /** Forgetting the entries of a task under traversal. */
  ghost predicate Cleared(s: Snap, s': Snap, t: Task) {
    && s' == s.(deps := s'.deps, counts := s.counts - {t})
    && forall h, d :: Waits(s', h, d) <==> Waits(s, h, d) && d != t
  }

  lemma ClearShape(g: Graph, s: Snap, s': Snap, x: set<Task>, t: Task)
    requires Shape(g, s) && Cleared(s, s', t) && t in x
    ensures Shape(g, s') && Outstanding(s, x) <= Outstanding(s', x)
  {
  }

  lemma ClearFrame(s: Snap, s': Snap, t: Task)
    requires Cleared(s, s', t)
    ensures forall d :: d != t ==> SameWait(s, s', d)
  {
  }

  lemma ClearKeeps(g: Graph, s: Snap, s': Snap, wait: map<Task, int>, x: set<Task>, t: Task)
    requires Round(g, s, wait, x) && Cleared(s, s', t)
    requires t in x && t in g.nodes && g.Head(t) !in wait
    ensures Round(g, s', wait, x) && Grows(g, s, s', wait, wait, x)
    ensures forall d :: d in g.nodes && d != t ==> SameWait(s, s', d)
  {
    ClearShape(g, s, s', x, t);
    ClearFrame(s, s', t);
    StepKeeps(g, s, s', wait, x, t);
  }

  /** Recording a task against a phase that has n unfinished tasks. */
  ghost predicate Added(s: Snap, s': Snap, h: Task, t: Task, n: int) {
    && !Waits(s, h, t)
    && s' == s.(deps := s'.deps, counts := s.counts[t := (if t in s.counts then s.counts[t] else 0) + n])
    && forall k, d :: Waits(s', k, d) <==> Waits(s, k, d) || (k == h && d == t)
  }

  lemma AddShape(g: Graph, s: Snap, s': Snap, x: set<Task>, h: Task, t: Task, n: int)
    requires Shape(g, s) && Added(s, s', h, t, n) && n >= 1
    requires t in x && t in g.nodes && h in g.Deps(t)
    ensures Shape(g, s') && Outstanding(s, x) <= Outstanding(s', x)
  {
    hide g.WellFormed;
    assert forall d :: d != t ==> (Waiting(s, d) <==> Waiting(s', d));
  }

  lemma AddFrame(s: Snap, s': Snap, h: Task, t: Task, n: int)
    requires Added(s, s', h, t, n)
    ensures forall d :: d != t ==> SameWait(s, s', d)
  {
  }

  lemma AddWithinBudget(g: Graph, s: Snap, s': Snap, x: set<Task>, h: Task, t: Task, n: int)
    requires Shape(g, s) && Budgeted(g, s, x) && Added(s, s', h, t, n)
    requires t in x && t in g.nodes && h in g.Deps(t)
    requires Answered(g, s, h, n) && Outstanding(s, x) <= Outstanding(s', x)
    ensures s'.counts[t] <= Budget(g, s', t, Outstanding(s', x))
  {
    BudgetAdd(g, s, s', t, Outstanding(s, x), h, |g.Deps(t)|);
    BudgetMono(g, s', s', t, Outstanding(s, x), Outstanding(s', x), |g.Deps(t)|);
    PhaseFacts(g, h);
    CountMono(g.Phase(h), Unfinished(s), Outstanding(s, x));
  }

  lemma AddKeeps(g: Graph, s: Snap, s': Snap, wait: map<Task, int>, x: set<Task>, h: Task, t: Task)
    requires Round(g, s, wait, x) && h in wait && wait[h] >= 1 && Added(s, s', h, t, wait[h])
    requires t in x && t in g.nodes && g.Head(t) !in wait && h in g.Deps(t)
    ensures Round(g, s', wait, x) && Grows(g, s, s', wait, wait, x)
    ensures forall d :: d in g.nodes && d != t ==> SameWait(s, s', d)
  {
    AddShape(g, s, s', x, h, t, wait[h]);
    AddFrame(s, s', h, t, wait[h]);
    AddWithinBudget(g, s, s', x, h, t, wait[h]);
    StepKeeps(g, s, s', wait, x, t);
  }

  /** Queueing a ready task. */
  ghost predicate Scheduled(s: Snap, s': Snap, t: Task) {
    s' == s.(todo := if t in s.pending then s.todo else s.todo + {t})
  }

  lemma ScheduleShape(g: Graph, s: Snap, s': Snap, t: Task)
    requires Shape(g, s) && t in g.nodes && Scheduled(s, s', t)
    requires t !in s.pending ==> s.st[t].Live()
    requires s.st[t].Live() ==> forall h :: h in g.Deps(t) ==> h in g.nodes && PhaseDone(g, s, h)
    ensures Shape(g, s') && ReadyOnly(g, s, s') && t in Outstanding(s', {})
  {
    assert Unfinished(s) == Unfinished(s');
    assert forall h, d :: Waits(s, h, d) == Waits(s', h, d);
  }

  lemma ScheduleKeeps(g: Graph, s: Snap, s': Snap, wait: map<Task, int>, x: set<Task>, t: Task)
    requires Round(g, s, wait, x) && t in g.nodes && Scheduled(s, s', t)
    requires t !in s.pending ==> s.st[t].Live()
    requires s.st[t].Live() ==> forall h :: h in g.Deps(t) ==> h in g.nodes && PhaseDone(g, s, h)
    ensures Round(g, s', wait, x) && Grows(g, s, s', wait, wait, x)
    ensures t in Outstanding(s', {})
    ensures forall d :: d in g.nodes ==> SameWait(s, s', d)
  {
    hide Shape, Budgeted, Outstanding, PhaseDone, ReadyOnly, Grows;
    SameWaitlists(g, s, s', x, t);
    ScheduleShape(g, s, s', t);
    StepKeeps(g, s, s', wait, x, t);
  }

  /** Noting that a task was seen complete. */
  lemma SeenKeeps(g: Graph, s: Snap, s': Snap, wait: map<Task, int>, x: set<Task>, t: Task)
    requires Round(g, s, wait, x) && t in g.nodes && s.st[t].Ok?
    requires s' == s.(seenOk := s.seenOk + {t})
    ensures Round(g, s', wait, x) && Grows(g, s, s', wait, wait, x)
    ensures forall d :: d in g.nodes ==> SameWait(s, s', d)
  {
    SameWaitlists(g, s, s', x, t);
    StepKeeps(g, s, s', wait, x, t);
  }

  /** The budget of t when the waitlists do not change. */
  lemma SameWaitlists(g: Graph, s: Snap, s': Snap, x: set<Task>, t: Task)
    requires Shape(g, s) && Budgeted(g, s, x) && t in g.nodes
    requires s'.deps == s.deps && s'.counts == s.counts && s'.st == s.st && s'.pending == s.pending
    requires s.todo <= s'.todo
    ensures forall h, d :: Waits(s, h, d) == Waits(s', h, d)
    ensures Outstanding(s, x) <= Outstanding(s', x)
    ensures t in s'.counts ==> s'.counts[t] <= Budget(g, s', t, Outstanding(s', x))
  {
    assert forall h, d :: Waits(s, h, d) == Waits(s', h, d);
    assert forall d :: Waiting(s, d) == Waiting(s', d);
    if t in s'.counts {
      BudgetMono(g, s, s', t, Outstanding(s, x), Outstanding(s', x), |g.Deps(t)|);
    }
  }

  /** Tasks that are outstanding anyway need not be kept in the traversal set. */
  lemma DropFromTraversal(g: Graph, s: Snap, wait: map<Task, int>, x: set<Task>, y: set<Task>)
    requires Round(g, s, wait, x)
    requires y <= x && x - y <= Outstanding(s, {})
    ensures Round(g, s, wait, y) && Outstanding(s, x) == Outstanding(s, y)
  {
    forall t | t in Outstanding(s, x)
      ensures t in Outstanding(s, y)
    {
      if t in x - y {
        assert t in Outstanding(s, {});
      }
    }
    assert Outstanding(s, x) == Outstanding(s, y);
  }

  /**
   A traversal that stayed below rank r: it leaves alone the entries of all
   other tasks, except those of the tasks in e.
   */
  ghost predicate Below(g: Graph, s: Snap, s': Snap, wait: map<Task, int>, wait': map<Task, int>, x: set<Task>, r: nat,
                        e: set<Task>)
    requires g.WellFormed()
  {
    && Grows(g, s, s', wait, wait', x)
    && (forall d :: d in g.nodes && d !in e && g.rank(g.Head(d)) >= r ==> SameWait(s, s', d))
    && (forall h :: h in wait' && h !in wait ==> g.rank(h) < r)
  }

  lemma BelowTransitive(g: Graph, s0: Snap, s1: Snap, s2: Snap, w0: map<Task, int>, w1: map<Task, int>,
                        w2: map<Task, int>, x: set<Task>, r: nat, e: set<Task>)
    requires g.WellFormed()
    requires Below(g, s0, s1, w0, w1, x, r, e) && Below(g, s1, s2, w1, w2, x, r, e)
    ensures Below(g, s0, s2, w0, w2, x, r, e)
  {
    GrowsTransitive(g, s0, s1, s2, w0, w1, w2, x);
  }

  lemma BelowReflexive(g: Graph, s: Snap, wait: map<Task, int>, x: set<Task>, r: nat, e: set<Task>)
    requires g.WellFormed()
    ensures Below(g, s, s, wait, wait, x, r, e)
  {
  }

  lemma BelowWeaken(g: Graph, s: Snap, s': Snap, wait: map<Task, int>, wait': map<Task, int>, x: set<Task>, r: nat,
                    e: set<Task>, r': nat, e': set<Task>)
    requires g.WellFormed() && Below(g, s, s', wait, wait', x, r, e)
    requires r <= r' && e <= e'
    ensures Below(g, s, s', wait, wait', x, r', e')
  {
  }

  lemma WidenTraversal(g: Graph, s: Snap, wait: map<Task, int>, x: set<Task>, y: set<Task>)
    requires Round(g, s, wait, x) && x <= y
    ensures Round(g, s, wait, y)
  {
    forall d | d in s.counts
      ensures s.counts[d] <= Budget(g, s, d, Outstanding(s, y))
    {
      BudgetMono(g, s, s, d, Outstanding(s, x), Outstanding(s, y), |g.Deps(d)|);
    }
  }

  /** Task t of the phase under traversal has been dealt with. */
  ghost predicate Handled(s: Snap, t: Task) {
    t in s.st ==>
      && (!s.st[t].Finished() ==> t in Outstanding(s, {}))
      && (s.st[t].Ok? ==> t in s.seenOk)
  }

  lemma HandledPersists(g: Graph, s: Snap, s': Snap, wait: map<Task, int>, wait': map<Task, int>, x: set<Task>, t: Task)
    requires Grows(g, s, s', wait, wait', x) && SameWait(s, s', t) && Handled(s, t)
    ensures Handled(s', t)
  {
  }

  // Returning tasks.

  /** What every step of an evaluation keeps. */
  ghost predicate Inv(g: Graph, s: Snap, roots: set<Task>, err: bool) {
    && Shape(g, s)
    && roots <= g.nodes.Keys
    && (!err ==> Budgeted(g, s, {}) && RootsCovered(g, s, roots, {}))
  }

  /** The invariant in the middle of a round. */
  ghost predicate RoundFor(g: Graph, s: Snap, wait: map<Task, int>, roots: set<Task>, x: set<Task>) {
    Round(g, s, wait, x) && RootsCovered(g, s, roots, x)
  }

  /** Task u, complete, has been taken off the pending list and every waiting count of its phase went down by one. */
  ghost predicate Completed(g: Graph, s: Snap, s': Snap, u: Task)
    requires u in g.nodes
  {
    && s' == s.(counts := s'.counts, pending := s.pending - {u}, seenOk := s.seenOk + {u})
    && forall d ::
         if Waits(s, g.Head(u), d)
         then d in s'.counts && s'.counts[d] == (if d in s.counts then s.counts[d] else 0) - 1
         else (d in s'.counts <==> d in s.counts) && (d in s.counts ==> s'.counts[d] == s.counts[d])
  }

  /** The tasks that a completion leaves without anything to wait for. */
  ghost function Released(g: Graph, s: Snap, h: Task): set<Task> {
    set d | d in s.counts && Waits(s, h, d) && s.counts[d] == 0
  }

  ghost function LiveOnes(s: Snap, ready: set<Task>): set<Task> {
    set d | d in ready && d in s.st && s.st[d].Live()
  }

  /** Apart from u itself, what was outstanding still is, or has just been released. */
  lemma CompletedOutstanding(g: Graph, s: Snap, s': Snap, u: Task, x: set<Task>)
    requires Shape(g, s) && u in s.pending && s.st[u].Ok? && Completed(g, s, s', u)
    requires x == LiveOnes(s', Released(g, s', g.Head(u)))
    ensures Shape(g, s') && Outstanding(s, {}) - {u} <= Outstanding(s', x)
  {
    assert forall h, d :: Waits(s, h, d) == Waits(s', h, d);
    forall t | t in Outstanding(s, {}) - {u}
      ensures t in Outstanding(s', x)
    {
      if Waiting(s, t) && s.st[t].Live() && t !in s.todo && t !in s.pending {
        if Waits(s, g.Head(u), t) && s.counts[t] == 1 {
          assert t in Released(g, s', g.Head(u));
        }
      }
    }
  }

  lemma CompletedKeeps(g: Graph, s: Snap, s': Snap, roots: set<Task>, u: Task, x: set<Task>)
    requires Inv(g, s, roots, false) && u in s.pending && s.st[u].Ok? && Completed(g, s, s', u)
    requires x == LiveOnes(s', Released(g, s', g.Head(u)))
    ensures RoundFor(g, s', map[], roots, x)
  {
    CompletedOutstanding(g, s, s', u, x);
    forall d | d in s'.counts
      ensures s'.counts[d] <= Budget(g, s', d, Outstanding(s', x))
    {
      CompletedBudget(g, s, s', u, x, d);
    }
  }

  lemma CompletedBudget(g: Graph, s: Snap, s': Snap, u: Task, x: set<Task>, d: Task)
    requires Shape(g, s) && Budgeted(g, s, {}) && u in s.pending && Completed(g, s, s', u)
    requires Outstanding(s, {}) - {u} <= Outstanding(s', x)
    requires d in s'.counts && d in g.nodes
    ensures s'.counts[d] <= Budget(g, s', d, Outstanding(s', x))
  {
    assert forall h, d :: Waits(s, h, d) == Waits(s', h, d);
    var n := |g.Deps(d)|;
    BudgetMinusOne(g, s, d, Outstanding(s, {}), Outstanding(s', x), u, n);
    BudgetMono(g, s, s', d, Outstanding(s', x), Outstanding(s', x), n);
  }

  /** Taking a lost task off the pending list to traverse it again. */
  lemma LostKeeps(g: Graph, s: Snap, s': Snap, roots: set<Task>, u: Task)
    requires Inv(g, s, roots, false) && u in s.pending && s.st[u].Lost?
    requires s' == s.(pending := s.pending - {u})
    ensures RoundFor(g, s', map[], roots, {u})
  {
    hide Budgeted;
    assert forall h, d :: Waits(s, h, d) == Waits(s', h, d);
    assert Outstanding(s, {}) <= Outstanding(s', {u});
    BudgetsLast(g, s, s', {}, {u});
  }

  /** The environment moves before the traversal starts. */
  lemma DriftBeforeRound(g: Graph, s: Snap, later: map<Task, TaskState>, roots: set<Task>, x: set<Task>)
    requires RoundFor(g, s, map[], roots, x) && Drift(s, later)
    ensures RoundFor(g, s.(st := later), map[], roots, x)
    ensures x <= LiveOnes(s, x) ==> x <= LiveOnes(s.(st := later), x)
  {
    DriftKeeps(g, s, later, x);
  }

  lemma DriftInv(g: Graph, s: Snap, later: map<Task, TaskState>, roots: set<Task>, err: bool)
    requires Inv(g, s, roots, err) && Drift(s, later)
    ensures Inv(g, s.(st := later), roots, err)
  {
    DriftKeeps(g, s, later, {});
  }

  /** A traversal covers the roots as well as before. */
  lemma TraversalCovers(g: Graph, s: Snap, s': Snap, wait: map<Task, int>, wait': map<Task, int>, roots: set<Task>,
                        x: set<Task>)
    requires RoundFor(g, s, wait, roots, x) && Round(g, s', wait', x) && Grows(g, s, s', wait, wait', x)
    ensures RoundFor(g, s', wait', roots, x)
  {
  }

  /** The round is over when every task in the traversal set has been visited. */
  lemma RoundOver(g: Graph, s: Snap, wait: map<Task, int>, roots: set<Task>, x: set<Task>)
    requires RoundFor(g, s, wait, roots, x) && roots <= g.nodes.Keys && x <= g.nodes.Keys
    requires x <= LiveOnes(s, x)
    requires forall t :: t in x ==> g.Head(t) in wait
    ensures Inv(g, s, roots, false)
  {
    forall t | t in x
      ensures t in Outstanding(s, {})
    {
      assert Answered(g, s, g.Head(t), wait[g.Head(t)]);
      PhaseFacts(g, t);
    }
    DropFromTraversal(g, s, wait, x, {});
  }
}
