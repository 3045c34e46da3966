/**
 The evaluator's state machine (exec/eval.go).

 A call into the evaluator is one round: `wait` memoizes one answer per phase,
 so each task state is read at most once per round, and task states are held
 fixed while a round traverses the graph. Everything that executors and
 machines do in the meantime is a `Drift` before or after the traversal.
 */
module Evaluator {
  import opened TaskGraph
  import opened Waitlist

  ghost function Elems(s: seq<Task>): set<Task> {
    set t | t in s
  }

  /** The first i tasks of the phase under traversal have been dealt with, n of them unfinished. */
  ghost predicate Visited(s: Snap, phase: seq<Task>, i: nat, n: int)
    requires i <= |phase|
  {
    && n == CountIn(phase[..i], Unfinished(s))
    && forall j :: 0 <= j < i ==> Handled(s, phase[j])
  }

  /** One more task of a phase has been visited. */
  lemma VisitStep(g: Graph, s1: Snap, s2: Snap, w1: map<Task, int>, w2: map<Task, int>,
                  x: set<Task>, r: nat, phase: seq<Task>, i: nat, n: int)
    requires g.WellFormed() && i < |phase| && Distinct(phase)
    requires forall t :: t in phase ==> t in g.nodes && g.rank(g.Head(t)) == r
    requires Below(g, s1, s2, w1, w2, x, r, {phase[i]})
    requires Visited(s1, phase, i, n) && Handled(s2, phase[i])
    ensures Visited(s2, phase, i + 1, n + if phase[i] in Unfinished(s2) then 1 else 0)
  {
    assert phase[..i + 1][..i] == phase[..i];
    assert Unfinished(s1) == Unfinished(s2);
    forall j | 0 <= j < i
      ensures Handled(s2, phase[j])
    {
      HandledPersists(g, s1, s2, w1, w2, x, phase[j]);
    }
  }

  lemma VisitChain(g: Graph, s0: Snap, s1: Snap, s2: Snap, w0: map<Task, int>, w1: map<Task, int>, w2: map<Task, int>,
                   x: set<Task>, r: nat, phase: seq<Task>, i: nat)
    requires g.WellFormed() && i < |phase|
    requires Below(g, s0, s1, w0, w1, x, r, Elems(phase[..i]))
    requires Below(g, s1, s2, w1, w2, x, r, {phase[i]})
    ensures Below(g, s0, s2, w0, w2, x, r, Elems(phase[..i + 1]))
  {
    assert phase[..i + 1] == phase[..i] + [phase[i]];
    BelowWeaken(g, s0, s1, w0, w1, x, r, Elems(phase[..i]), r, Elems(phase[..i + 1]));
    BelowWeaken(g, s1, s2, w1, w2, x, r, {phase[i]}, r, Elems(phase[..i + 1]));
    BelowTransitive(g, s0, s1, s2, w0, w1, w2, x, r, Elems(phase[..i + 1]));
  }

  /** A phase whose tasks have all been visited can be answered. */
  lemma AnswerPhase(g: Graph, s: Snap, w: map<Task, int>, x: set<Task>, head: Task, n: int)
    requires Round(g, s, w, x) && head in g.nodes && g.Head(head) == head
    requires Visited(s, g.Phase(head), |g.Phase(head)|, n)
    ensures Round(g, s, w[head := n], x)
  {
    var phase := g.Phase(head);
    assert phase[..|phase|] == phase;
  }

  lemma AnswerFrame(g: Graph, s0: Snap, s: Snap, w0: map<Task, int>, w: map<Task, int>, x: set<Task>, head: Task,
                    n: int)
    requires g.WellFormed() && head in g.nodes && g.Head(head) == head && head !in w
    requires Below(g, s0, s, w0, w, x, g.rank(head), Elems(g.Phase(head)[..|g.Phase(head)|]))
    ensures Below(g, s0, s, w0, w[head := n], x, g.rank(head) + 1, {})
  {
    PhaseFacts(g, head);
    assert g.Phase(head)[..|g.Phase(head)|] == g.Phase(head);
    forall d | d in g.nodes && g.rank(g.Head(d)) >= g.rank(head) + 1
      ensures SameWait(s0, s, d)
    {
      assert d !in Elems(g.Phase(head));
    }
  }

  /** What holds when a phase is asked for. */
  lemma EnqueueFacts(g: Graph, s: Snap, w: map<Task, int>, x: set<Task>, task: Task)
    requires Round(g, s, w, x) && task in g.nodes
    ensures g.WellFormed() && s.st.Keys == g.nodes.Keys
    ensures Below(g, s, s, w, w, x, g.rank(g.Head(task)) + 1, {})
    ensures g.Head(task) in w ==> w[g.Head(task)] >= 0
    ensures g.Head(task) in g.nodes && g.Head(g.Head(task)) == g.Head(task)
    ensures g.Phase(g.Head(task)) == g.Phase(task) && Distinct(g.Phase(task))
    ensures forall t :: t in g.Phase(task) ==> t in g.nodes && g.Head(t) == g.Head(task)
  {
    PhaseFacts(g, task);
    if g.Head(task) in w {
      assert Answered(g, s, g.Head(task), w[g.Head(task)]);
    }
  }

  lemma StartVisiting(g: Graph, s: Snap, w: map<Task, int>, x: set<Task>, r: nat, phase: seq<Task>)
    requires g.WellFormed()
    ensures Below(g, s, s, w, w, x, r, Elems(phase[..0])) && Visited(s, phase, 0, 0)
  {
  }

  /** The first i dependencies of t are finished. */
  ghost predicate Finished(g: Graph, s: Snap, t: Task, i: nat)
    requires t in g.nodes && i <= |g.Deps(t)|
  {
    forall j :: 0 <= j < i ==> g.Deps(t)[j] in g.nodes && PhaseDone(g, s, g.Deps(t)[j])
  }

  /** Task t is recorded against exactly the unfinished ones of its first i dependencies. */
  ghost predicate WaitsFor(g: Graph, s: Snap, t: Task, i: nat)
    requires t in g.nodes && i <= |g.Deps(t)|
  {
    forall h :: Waits(s, h, t) <==> h in g.Deps(t)[..i] && h in g.nodes && !PhaseDone(g, s, h)
  }

  /**
   Task t has been checked against its first i dependencies: either all of
   them are finished and nothing is counted, or it is counted how many tasks of
   the others are unfinished.
   */
  ghost predicate Recorded(g: Graph, s: Snap, t: Task, i: nat, ready: bool)
    requires g.WellFormed() && t in g.nodes && i <= |g.Deps(t)|
  {
    && WaitsFor(g, s, t, i) && (ready <==> Finished(g, s, t, i))
    && (ready ==> t !in s.counts)
    && (!ready ==> Waitlist.Waiting(s, t) && s.counts[t] == Budget(g, s, t, Unfinished(s)))
  }

  /**
   The outcome for an Init or Lost task: it is queued, unless it is pending,
   exactly if its dependencies are finished, and otherwise it waits for as many
   completions as they have unfinished tasks.
   */
  ghost predicate Checked(g: Graph, s: Snap, t: Task)
    requires g.WellFormed() && t in g.nodes
  {
    && WaitsFor(g, s, t, |g.Deps(t)|)
    && if Finished(g, s, t, |g.Deps(t)|) then t !in s.counts && (t in s.todo || t in s.pending)
       else t in s.counts && s.counts[t] == Budget(g, s, t, Unfinished(s)) >= 1
  }

  lemma StartLive(g: Graph, s: Snap, w: map<Task, int>, x: set<Task>, t: Task)
    requires Round(g, s, w, x)
    ensures Shape(g, s) && g.WellFormed()
  {
  }

  /** Clearing t starts the check afresh. */
  lemma StartRecording(g: Graph, s0: Snap, s1: Snap, w: map<Task, int>, x: set<Task>, y: set<Task>, t: Task)
    requires Round(g, s0, w, x) && t in g.nodes && g.Head(t) !in w && y == x + {t}
    requires Cleared(s0, s1, t) && g.WellFormed()
    ensures Round(g, s1, w, y) && Below(g, s0, s1, w, w, y, g.rank(g.Head(t)), {t}) && Recorded(g, s1, t, 0, true)
  {
    WidenTraversal(g, s0, w, x, y);
    ClearKeeps(g, s0, s1, w, y, t);
  }

  lemma DependencyFacts(g: Graph, s: Snap, w: map<Task, int>, y: set<Task>, t: Task, i: nat)
    requires Round(g, s, w, y) && t in g.nodes && i < |g.Deps(t)|
    ensures var h := g.Deps(t)[i]; h in g.nodes && g.Head(h) == h && g.rank(h) < g.rank(g.Head(t))
  {
    assert g.DepsOk(t);
  }

  /** A dependency of t has been enqueued; it may turn out to be finished. */
  lemma DependencyDone(g: Graph, s1: Snap, s2: Snap, w1: map<Task, int>, w2: map<Task, int>,
                       y: set<Task>, t: Task, i: nat, ready: bool)
    requires Round(g, s2, w2, y) && t in g.nodes && i < |g.Deps(t)| && g.Deps(t)[i] in w2 && g.Head(t) !in w1
    requires Below(g, s1, s2, w1, w2, y, g.rank(g.Deps(t)[i]) + 1, {})
    requires g.rank(g.Deps(t)[i]) < g.rank(g.Head(t))
    requires Recorded(g, s1, t, i, ready)
    ensures Below(g, s1, s2, w1, w2, y, g.rank(g.Head(t)), {t}) && g.Head(t) !in w2
    ensures Recorded(g, s2, t, i, ready)
    ensures w2[g.Deps(t)[i]] == 0 ==> Recorded(g, s2, t, i + 1, ready)
  {
    hide Recorded, Budgeted;
    assert Answered(g, s2, g.Deps(t)[i], w2[g.Deps(t)[i]]);
    RecordedPersists(g, s1, s2, t, i, ready);
    if w2[g.Deps(t)[i]] == 0 {
      RecordedDone(g, s2, t, i, ready);
    }
  }

  lemma RecordedPersists(g: Graph, s1: Snap, s2: Snap, t: Task, i: nat, ready: bool)
    requires g.WellFormed() && t in g.nodes && i <= |g.Deps(t)| && Recorded(g, s1, t, i, ready)
    requires SameWait(s1, s2, t) && s1.st == s2.st
    ensures Recorded(g, s2, t, i, ready)
  {
    hide g.WellFormed, Budget, CountIn;
    assert Unfinished(s1) == Unfinished(s2);
    SameBudget(g, s1, s2, t, Unfinished(s1));
    assert forall j :: 0 <= j < i && g.Deps(t)[j] in g.nodes ==>
             (PhaseDone(g, s1, g.Deps(t)[j]) <==> PhaseDone(g, s2, g.Deps(t)[j]));
  }

  lemma SameBudget(g: Graph, s1: Snap, s2: Snap, t: Task, x: set<Task>)
    requires g.WellFormed() && t in g.nodes && SameWait(s1, s2, t)
    ensures Budget(g, s1, t, x) == Budget(g, s2, t, x)
  {
    BudgetMono(g, s1, s2, t, x, x, |g.Deps(t)|);
    BudgetMono(g, s2, s1, t, x, x, |g.Deps(t)|);
  }

  /** The next dependency is finished. */
  lemma RecordedDone(g: Graph, s: Snap, t: Task, i: nat, ready: bool)
    requires g.WellFormed() && t in g.nodes && i < |g.Deps(t)| && Recorded(g, s, t, i, ready)
    requires g.Deps(t)[i] in g.nodes && PhaseDone(g, s, g.Deps(t)[i])
    ensures Recorded(g, s, t, i + 1, ready)
  {
    hide g.WellFormed, Budget, PhaseDone;
    assert g.Deps(t)[..i + 1] == g.Deps(t)[..i] + [g.Deps(t)[i]];
  }

  /** The next dependency has unfinished tasks, which are counted unless they were before. */
  lemma RecordedMore(g: Graph, s1: Snap, s2: Snap, t: Task, i: nat, ready: bool, n: int)
    requires g.WellFormed() && t in g.nodes && i < |g.Deps(t)| && Recorded(g, s1, t, i, ready)
    requires var h := g.Deps(t)[i];
             && h in g.nodes && n == CountIn(g.Phase(h), Unfinished(s1)) >= 1
             && if Waits(s1, h, t) then s2 == s1 else Added(s1, s2, h, t, n)
    ensures Recorded(g, s2, t, i + 1, false)
  {
    hide g.WellFormed, Budget, CountIn;
    var h := g.Deps(t)[i];
    assert g.Deps(t)[..i + 1] == g.Deps(t)[..i] + [h];
    assert !PhaseDone(g, s1, h) && g.Deps(t)[i] == h;
    if Waits(s1, h, t) {
      assert !Finished(g, s1, t, i) && !Finished(g, s1, t, i + 1);
    } else {
      AddedWaits(g, s1, s2, t, i, n);
      BudgetGrows(g, s1, s2, t, h, Unfinished(s1));
      assert !Finished(g, s2, t, i + 1);
    }
  }

  lemma AddedWaits(g: Graph, s1: Snap, s2: Snap, t: Task, i: nat, n: int)
    requires t in g.nodes && i < |g.Deps(t)| && WaitsFor(g, s1, t, i) && g.Deps(t)[i] in g.nodes
    requires Added(s1, s2, g.Deps(t)[i], t, n) && !PhaseDone(g, s1, g.Deps(t)[i])
    ensures WaitsFor(g, s2, t, i + 1) && Unfinished(s1) == Unfinished(s2)
  {
    hide CountIn;
    assert g.Deps(t)[..i + 1] == g.Deps(t)[..i] + [g.Deps(t)[i]];
    assert Unfinished(s1) == Unfinished(s2);
  }

  lemma BudgetGrows(g: Graph, s1: Snap, s2: Snap, t: Task, h: Task, x: set<Task>)
    requires g.WellFormed() && t in g.nodes && h in g.Deps(t) && h in g.nodes
    requires !Waits(s1, h, t) && Waits(s2, h, t) && forall k :: k != h ==> (Waits(s1, k, t) <==> Waits(s2, k, t))
    ensures Budget(g, s2, t, x) == Budget(g, s1, t, x) + CountIn(g.Phase(h), x)
    ensures (forall k :: !Waits(s1, k, t)) ==> Budget(g, s1, t, x) == 0
  {
    assert g.Deps(t)[..|g.Deps(t)|] == g.Deps(t);
    if forall k :: !Waits(s1, k, t) {
      BudgetNone(g, s1, t, x, |g.Deps(t)|);
    }
    BudgetAdd(g, s1, s2, t, x, h, |g.Deps(t)|);
  }

  /** It is unfinished, and t is recorded against it unless it had been already. */
  lemma DependencyAdded(g: Graph, s0: Snap, s1: Snap, s2: Snap, w0: map<Task, int>, w: map<Task, int>,
                        y: set<Task>, t: Task, i: nat, ready: bool)
    requires Round(g, s1, w, y) && t in y && t in g.nodes && g.Head(t) !in w && i < |g.Deps(t)|
    requires g.Deps(t)[i] in w && w[g.Deps(t)[i]] >= 1
    requires Below(g, s0, s1, w0, w, y, g.rank(g.Head(t)), {t})
    requires Recorded(g, s1, t, i, ready)
    requires Waits(s1, g.Deps(t)[i], t) ==> s2 == s1
    requires !Waits(s1, g.Deps(t)[i], t) ==> Added(s1, s2, g.Deps(t)[i], t, w[g.Deps(t)[i]])
    ensures Round(g, s2, w, y) && Below(g, s0, s2, w0, w, y, g.rank(g.Head(t)), {t})
    ensures Recorded(g, s2, t, i + 1, false)
  {
    hide Round, Below, Recorded, Added;
    if !Waits(s1, g.Deps(t)[i], t) {
      AddBelow(g, s0, s1, s2, w0, w, y, g.Deps(t)[i], t);
    }
    Answer(g, s1, w, y, g.Deps(t)[i]);
    RecordedMore(g, s1, s2, t, i, ready, w[g.Deps(t)[i]]);
  }

  lemma Answer(g: Graph, s: Snap, w: map<Task, int>, y: set<Task>, h: Task)
    requires Round(g, s, w, y) && h in w
    ensures g.WellFormed() && h in g.nodes && w[h] == CountIn(g.Phase(h), Unfinished(s))
  {
    assert Answered(g, s, h, w[h]);
  }

  lemma AddBelow(g: Graph, s0: Snap, s1: Snap, s2: Snap, w0: map<Task, int>, w: map<Task, int>, y: set<Task>, h: Task,
                 t: Task)
    requires Round(g, s1, w, y) && h in w && w[h] >= 1 && Added(s1, s2, h, t, w[h])
    requires t in y && t in g.nodes && g.Head(t) !in w && h in g.Deps(t)
    requires Below(g, s0, s1, w0, w, y, g.rank(g.Head(t)), {t})
    ensures Round(g, s2, w, y) && Below(g, s0, s2, w0, w, y, g.rank(g.Head(t)), {t})
  {
    AddKeeps(g, s1, s2, w, y, h, t);
    BelowTransitive(g, s0, s1, s2, w0, w, w, y, g.rank(g.Head(t)), {t});
  }

  /** The check of t is over: it is queued if it was ready. */
  lemma FinishRecording(g: Graph, s0: Snap, s1: Snap, s2: Snap, w0: map<Task, int>, w: map<Task, int>,
                        x: set<Task>, y: set<Task>, t: Task, ready: bool)
    requires Round(g, s1, w, y) && t in g.nodes && t in s0.st && s0.st[t].Live() && y == x + {t}
    requires Below(g, s0, s1, w0, w, y, g.rank(g.Head(t)), {t})
    requires Recorded(g, s1, t, |g.Deps(t)|, ready)
    requires if ready then Scheduled(s1, s2, t) else s2 == s1
    ensures Round(g, s2, w, y) && Below(g, s0, s2, w0, w, y, g.rank(g.Head(t)), {t})
    ensures t in Outstanding(s2, {}) && Checked(g, s2, t)
  {
    hide Budgeted;
    if ready {
      ScheduleKeeps(g, s1, s2, w, y, t);
      BelowTransitive(g, s0, s1, s2, w0, w, w, y, g.rank(g.Head(t)), {t});
    }
    FinishChecked(g, s1, s2, t, ready);
  }

  lemma FinishChecked(g: Graph, s1: Snap, s2: Snap, t: Task, ready: bool)
    requires g.WellFormed() && t in g.nodes && Recorded(g, s1, t, |g.Deps(t)|, ready)
    requires if ready then Scheduled(s1, s2, t) else s2 == s1
    ensures Checked(g, s2, t)
  {
    hide g.WellFormed, Budget, CountIn;
    assert Unfinished(s1) == Unfinished(s2);
    assert forall h :: Waits(s1, h, t) <==> Waits(s2, h, t);
    assert forall h :: h in g.nodes ==> (PhaseDone(g, s1, h) <==> PhaseDone(g, s2, h));
  }

  /** Task t no longer needs the protection of the traversal set. */
  lemma LeaveTraversal(g: Graph, s0: Snap, s: Snap, w0: map<Task, int>, w: map<Task, int>, x: set<Task>, y: set<Task>,
                       t: Task)
    requires Round(g, s, w, y) && t in g.nodes && y == x + {t} && t in Outstanding(s, {})
    requires Below(g, s0, s, w0, w, y, g.rank(g.Head(t)), {t})
    ensures Round(g, s, w, x) && Below(g, s0, s, w0, w, x, g.rank(g.Head(t)), {t})
  {
    DropFromTraversal(g, s, w, y, x);
    assert Outstanding(s0, x) <= Outstanding(s0, y);
  }

  lemma StartRound(g: Graph, s: Snap, w: map<Task, int>, roots: set<Task>, x: set<Task>)
    requires RoundFor(g, s, w, roots, x)
    ensures Round(g, s, w, x) && Grows(g, s, s, w, w, x)
  {
  }

  lemma EnqueueAllStep(g: Graph, s0: Snap, s1: Snap, s2: Snap, w0: map<Task, int>, w1: map<Task, int>,
                       w2: map<Task, int>,
                       roots: set<Task>, x: set<Task>, t: Task)
    requires RoundFor(g, s1, w1, roots, x) && Grows(g, s0, s1, w0, w1, x)
    requires Round(g, s2, w2, x) && t in g.nodes && Below(g, s1, s2, w1, w2, x, g.rank(g.Head(t)) + 1, {})
    ensures RoundFor(g, s2, w2, roots, x) && Round(g, s2, w2, x) && Grows(g, s0, s2, w0, w2, x)
    ensures forall h :: h in w1 ==> h in w2
  {
    TraversalCovers(g, s1, s2, w1, w2, roots, x);
    GrowsTransitive(g, s0, s1, s2, w0, w1, w2, x);
  }

  lemma InvFacts(g: Graph, s: Snap, roots: set<Task>, err: bool)
    requires Inv(g, s, roots, err)
    ensures s.st.Keys == g.nodes.Keys && s.pending <= g.nodes.Keys && roots <= g.nodes.Keys
  {
  }

  /** A task that failed can be taken off the pending list, since evaluation ends with it. */
  lemma ReturnFacts(g: Graph, s: Snap, roots: set<Task>, u: Task)
    requires Inv(g, s, roots, false) && u in s.pending && (u in s.st ==> !s.st[u].InFlight())
    ensures u in s.st && !s.st[u].Init?
    ensures s.st[u].Err? ==> Inv(g, s.(pending := s.pending - {u}), roots, true)
    ensures ReadyOnly(g, s, s.(pending := s.pending - {u}))
  {
    var s' := s.(pending := s.pending - {u});
    assert forall h, d :: Waits(s, h, d) == Waits(s', h, d);
  }

  /** What a round queued was ready. */
  lemma QueuedReady(g: Graph, s0: Snap, s1: Snap, s2: Snap, w1: map<Task, int>, w2: map<Task, int>, x: set<Task>)
    requires Grows(g, s1, s2, w1, w2, x) && s0.todo == s1.todo
    ensures ReadyOnly(g, s0, s2) && s0.todo <= s2.todo && s2.st == s1.st && s2.pending == s1.pending && Saw(s1, s2)
  {
  }

  lemma StartReturn(g: Graph, s0: Snap, s1: Snap, s2: Snap, roots: set<Task>, u: Task, ready: seq<Task>)
    returns (x: set<Task>)
    requires Inv(g, s0, roots, false) && u in s0.pending && s0.st[u].Ok? && Completed(g, s0, s1, u)
    requires Drift(s1, s2.st) && s2 == s1.(st := s2.st)
    requires Elems(ready) == Released(g, s1, g.Head(u))
    ensures RoundFor(g, s2, map[], roots, x) && x <= LiveOnes(s2, x) && x <= g.nodes.Keys
    ensures forall t :: t in ready ==> t in g.nodes
    ensures forall t :: t in x ==> t in ready
  {
    x := LiveOnes(s1, Released(g, s1, g.Head(u)));
    CompletedKeeps(g, s0, s1, roots, u, x);
    DriftBeforeRound(g, s1, s2.st, roots, x);
    forall t | t in ready
      ensures t in g.nodes
    {
      assert t in Elems(ready);
    }
  }

  class State {
    const g: Graph

    // deps holds the waiting tasks by phase, counts the completions that each of them waits for.
    var deps: map<Task, set<Task>>
    var counts: map<Task, int>
    // todo holds the queued tasks.
    var todo: set<Task>
    // pending holds the tasks that were handed out and not returned.
    var pending: set<Task>
    // wait memoizes the waiting count per phase, per round.
    var wait: map<Task, int>
    var err: bool
    // st holds the state of every task.
    var st: map<Task, TaskState>
    // seenOk collects the tasks that the evaluator has read as complete.
    ghost var seenOk: set<Task>

    ghost function Now(): Snap
      reads this`deps, this`counts, this`todo, this`pending, this`st, this`seenOk
    {
      Snap(deps, counts, todo, pending, st, seenOk)
    }

    /** Schedules the task unless it is already pending. */
    method Schedule(task: Task)
      modifies this`todo
      ensures Scheduled(old(Now()), Now(), task)
    {
      if task in pending {
        return;
      }
      todo := todo + {task};
    }

    /** The task is forgotten by all waitlists. */
    method Clear(task: Task)
      requires Shape(g, Now()) && task in g.nodes
      modifies this`deps, this`counts
      ensures Cleared(old(Now()), Now(), task)
    {
      counts := counts - {task};
      var ds := g.Deps(task);
      for i := 0 to |ds|
        invariant counts == old(counts) - {task}
        invariant forall h, d :: Waits(Now(), h, d) <==> Waits(old(Now()), h, d) && !(d == task && h in ds[..i])
      {
        if ds[i] in deps {
          deps := deps[ds[i] := deps[ds[i]] - {task}];
        }
      }
    }

    /** Adds a dependency of n completions from src to dst, unless there is one already. */
    method Add(src: Task, dst: Task, n: nat)
      modifies this`deps, this`counts
      ensures Waits(old(Now()), src, dst) ==> Now() == old(Now())
      ensures !Waits(old(Now()), src, dst) ==> Added(old(Now()), Now(), src, dst, n)
    {
      var count := if dst in counts then counts[dst] else 0;
      if src !in deps {
        deps := deps[src := {dst}];
        counts := counts[dst := count + n];
      } else if dst !in deps[src] {
        deps := deps[src := deps[src] + {dst}];
        counts := counts[dst := count + n];
      }
    }

    /**
     Enqueues all ready tasks at or below the phase of `task` and returns how
     many tasks of the phase are unfinished.
     */
    method Enqueue(task: Task, ghost x: set<Task>) returns (nwait: nat)
      requires task in g.nodes && Round(g, Now(), wait, x)
      modifies this`deps, this`counts, this`todo, this`wait, this`seenOk
      ensures Round(g, Now(), wait, x)
      ensures Below(g, old(Now()), Now(), old(wait), wait, x, g.rank(g.Head(task)) + 1, {})
      ensures g.Head(task) in wait && nwait == wait[g.Head(task)]
      decreases g.rank(g.Head(task)), 1
    {
      hide *;
      var head := g.Head(task);
      EnqueueFacts(g, Now(), wait, x, task);
      ghost var s0, w0, r := Now(), wait, g.rank(head);
      if head in wait {
        return wait[head];
      }
      var phase := g.Phase(task);
      nwait := 0;
      StartVisiting(g, s0, w0, x, r, phase);
      for i := 0 to |phase|
        invariant Round(g, Now(), wait, x) && Below(g, s0, Now(), w0, wait, x, r, Elems(phase[..i]))
        invariant Visited(Now(), phase, i, nwait) && head !in wait
      {
        ghost var s1, w1 := Now(), wait;
        var n := Visit(phase[i], x);
        VisitStep(g, s1, Now(), w1, wait, x, r, phase, i, nwait);
        VisitChain(g, s0, s1, Now(), w0, w1, wait, x, r, phase, i);
        nwait := nwait + n;
      }
      AnswerPhase(g, Now(), wait, x, head, nwait);
      AnswerFrame(g, s0, Now(), w0, wait, x, head, nwait);
      wait := wait[head := nwait];
    }

    /** The part of Enqueue that deals with one task of the phase; returns 1 if the task is unfinished. */
    method Visit(t: Task, ghost x: set<Task>) returns (n: nat)
      requires t in g.nodes && Round(g, Now(), wait, x) && g.Head(t) !in wait
      modifies this`deps, this`counts, this`todo, this`wait, this`seenOk
      ensures Round(g, Now(), wait, x)
      ensures Below(g, old(Now()), Now(), old(wait), wait, x, g.rank(g.Head(t)), {t})
      ensures Handled(Now(), t) && g.Head(t) !in wait
      ensures n == if t in Unfinished(Now()) then 1 else 0
      decreases g.rank(g.Head(t)), 0, 1
    {
      hide g.WellFormed, CountIn, Budgeted;
      ghost var s0 := Now();
      BelowReflexive(g, Now(), wait, x, g.rank(g.Head(t)), {t});
      match st[t] {
        case Ok =>
          seenOk := seenOk + {t};
          SeenKeeps(g, s0, Now(), wait, x, t);
          n := 0;
        case Err =>
          n := 0;
        case Waiting | Running =>
          Schedule(t);
          ScheduleKeeps(g, s0, Now(), wait, x, t);
          n := 1;
        case Init | Lost =>
          VisitLive(t, x);
          n := 1;
      }
    }

    /** The part of Enqueue that deals with a task that has to be run. */
    method VisitLive(t: Task, ghost x: set<Task>)
      requires t in g.nodes && Round(g, Now(), wait, x) && g.Head(t) !in wait && Now().st[t].Live()
      modifies this`deps, this`counts, this`todo, this`wait, this`seenOk
      ensures Round(g, Now(), wait, x)
      ensures Below(g, old(Now()), Now(), old(wait), wait, x, g.rank(g.Head(t)), {t})
      ensures t in Outstanding(Now(), {}) && Checked(g, Now(), t)
      decreases g.rank(g.Head(t)), 0, 0
    {
      hide *;
      ghost var s0, w0, y, r := Now(), wait, x + {t}, g.rank(g.Head(t));
      StartLive(g, s0, w0, x, t);
      Clear(t);
      StartRecording(g, s0, Now(), wait, x, y, t);
      var ready := true;
      var ds := g.Deps(t);
      for i := 0 to |ds|
        invariant Round(g, Now(), wait, y) && Below(g, s0, Now(), w0, wait, y, r, {t})
        invariant Recorded(g, Now(), t, i, ready) && g.Head(t) !in wait
      {
        ghost var s1, w1 := Now(), wait;
        DependencyFacts(g, s1, w1, y, t, i);
        var n := Enqueue(ds[i], y);
        ghost var s2, w2 := Now(), wait;
        DependencyDone(g, s1, s2, w1, w2, y, t, i, ready);
        BelowTransitive(g, s0, s1, s2, w0, w1, w2, y, r, {t});
        if n == 0 {
          continue;
        }
        Add(ds[i], t, n);
        DependencyAdded(g, s0, s2, Now(), w0, wait, y, t, i, ready);
        ready := false;
      }
      ghost var s1 := Now();
      if ready {
        Schedule(t);
      }
      FinishRecording(g, s0, s1, Now(), w0, wait, x, y, t, ready);
      LeaveTraversal(g, s0, Now(), w0, wait, x, y, t);
    }

    /** Takes one completion from everything that waits for the phase; returns what has nothing left to wait for. */
    method DoneWith(src: Task) returns (ready: seq<Task>)
      modifies this`counts
      ensures forall d ::
                if Waits(old(Now()), src, d)
                then d in counts && counts[d] == (if d in old(counts) then old(counts[d]) else 0) - 1
                else (d in counts <==> d in old(counts)) && (d in counts ==> counts[d] == old(counts[d]))
      ensures Elems(ready) == Released(g, Now(), src)
    {
      ready := [];
      if src !in deps {
        return;
      }
      var left := deps[src];
      while left != {}
        invariant left <= deps[src]
        invariant forall d ::
                    if d in deps[src] - left
                    then d in counts && counts[d] == (if d in old(counts) then old(counts[d]) else 0) - 1
                    else (d in counts <==> d in old(counts)) && (d in counts ==> counts[d] == old(counts[d]))
        invariant forall d :: d in ready <==> d in deps[src] - left && d in counts && counts[d] == 0
      {
        var dst :| dst in left;
        counts := counts[dst := (if dst in counts then counts[dst] else 0) - 1];
        if counts[dst] == 0 {
          ready := ready + [dst];
        }
        left := left - {dst};
      }
    }

    /** Starts an evaluation: nothing has been looked at yet. */
    constructor (g: Graph, st: map<Task, TaskState>)
      ensures this.g == g && this.st == st && !err && wait == map[]
      ensures Now() == Snap(map[], map[], {}, {}, st, {})
    {
      this.g, this.st := g, st;
      deps, counts, todo, pending, wait, err, seenOk := map[], map[], {}, {}, map[], false, {};
    }

    /** Enqueues the phases of several tasks in one round. */
    method EnqueueAll(tasks: seq<Task>, ghost roots: set<Task>, ghost x: set<Task>)
      requires RoundFor(g, Now(), wait, roots, x)
      requires forall t :: t in tasks ==> t in g.nodes
      modifies this`deps, this`counts, this`todo, this`wait, this`seenOk
      ensures RoundFor(g, Now(), wait, roots, x) && Grows(g, old(Now()), Now(), old(wait), wait, x)
      ensures forall t :: t in tasks ==> g.Head(t) in wait
    {
      hide *;
      ghost var s0, w0 := Now(), wait;
      StartRound(g, s0, w0, roots, x);
      for i := 0 to |tasks|
        invariant RoundFor(g, Now(), wait, roots, x) && Round(g, Now(), wait, x) && Grows(g, s0, Now(), w0, wait, x)
        invariant forall j :: 0 <= j < i ==> g.Head(tasks[j]) in wait
      {
        ghost var s1, w1 := Now(), wait;
        var _ := Enqueue(tasks[i], x);
        EnqueueAllStep(g, s0, s1, Now(), w0, w1, wait, roots, x, tasks[i]);
      }
    }

    /** Return, for a task that completed. */
    method ReturnOk(task: Task, later: map<Task, TaskState>, ghost roots: set<Task>)
      requires Inv(g, Now(), roots, false) && wait == map[]
      requires task in pending && st[task].Ok?
      requires MayBecome(st, pending - {task}, later)
      modifies this`deps, this`counts, this`todo, this`wait, this`seenOk, this`pending, this`st
      ensures Inv(g, Now(), roots, false)
      ensures pending == old(pending) - {task} && old(todo) <= todo && st == later
      ensures ReadyOnly(g, old(Now()), Now())
      ensures forall t :: t in seenOk ==> t in old(seenOk) || t == task || (t in st && st[t].Ok?)
    {
      hide Inv, RoundFor, Round, Shape, Grows, ReadyOnly, Outstanding, Released;
      ghost var s0 := Now();
      InvFacts(g, s0, roots, false);
      pending := pending - {task};
      seenOk := seenOk + {task};
      var ready := DoneWith(g.Head(task));
      ghost var s1 := Now();
      st := later;
      ghost var x := StartReturn(g, s0, s1, Now(), roots, task, ready);
      ghost var s2 := Now();
      EnqueueAll(ready, roots, x);
      QueuedReady(g, s0, s2, Now(), map[], wait, x);
      RoundOver(g, Now(), wait, roots, x);
    }

    /** Return, for a task that was lost: it is enqueued again immediately. */
    method ReturnLost(task: Task, later: map<Task, TaskState>, ghost roots: set<Task>)
      requires Inv(g, Now(), roots, false) && wait == map[]
      requires task in pending && st[task].Lost?
      requires MayBecome(st, pending - {task}, later)
      modifies this`deps, this`counts, this`todo, this`wait, this`seenOk, this`pending, this`st
      ensures Inv(g, Now(), roots, false)
      ensures pending == old(pending) - {task} && old(todo) <= todo && st == later
      ensures ReadyOnly(g, old(Now()), Now()) && Saw(old(Now()), Now())
    {
      hide Inv, RoundFor, Round, Shape, Grows, ReadyOnly, Outstanding, Released;
      ghost var s0 := Now();
      InvFacts(g, s0, roots, false);
      pending := pending - {task};
      LostKeeps(g, s0, Now(), roots, task);
      DriftBeforeRound(g, Now(), later, roots, {task});
      st := later;
      ghost var s2 := Now();
      EnqueueAll([task], roots, {task});
      QueuedReady(g, s0, s2, Now(), map[], wait, {task});
      RoundOver(g, Now(), wait, roots, {task});
    }

    /**
     Takes back a task that has left the executor, and queues whatever became
     ready or has to be run again. A failed task ends the evaluation. `later` is
     what the environment makes of the task states between reading the returned
     task and traversing the graph.
     */
    method Return(task: Task, later: map<Task, TaskState>, ghost roots: set<Task>)
      requires Inv(g, Now(), roots, err) && !err
      requires task in pending && !st[task].InFlight()
      requires MayBecome(st, pending - {task}, later)
      modifies this
      ensures Inv(g, Now(), roots, err)
      ensures err == old(st[task]).Err?
      ensures pending == old(pending) - {task} && old(todo) <= todo
      ensures st == if err then old(st) else later
      ensures ReadyOnly(g, old(Now()), Now())
      ensures forall t :: t in seenOk ==> t in old(seenOk) || (t == task && old(st[task]).Ok?) || (t in st && st[t].Ok?)
    {
      hide Shape, Grows, ReadyOnly, Outstanding, Budgeted, RootsCovered, MayBecome;
      ReturnFacts(g, Now(), roots, task);
      wait := map[];
      match st[task] {
        case Ok =>
          ReturnOk(task, later, roots);
        case Lost =>
          ReturnLost(task, later, roots);
        case Err =>
          pending := pending - {task};
          err := true;
      }
    }

    /** Hands out everything that is queued, each task once. */
    method Runnable() returns (tasks: seq<Task>)
      modifies this`todo, this`pending
      ensures Elems(tasks) == old(todo) && Distinct(tasks)
      ensures todo == {} && pending == old(pending) + old(todo)
    {
      tasks := [];
      while todo != {}
        invariant Elems(tasks) + todo == old(todo) && Elems(tasks) !! todo && Distinct(tasks)
        invariant pending == old(pending) + Elems(tasks)
      {
        var task :| task in todo;
        assert Elems(tasks + [task]) == Elems(tasks) + {task};
        assert forall t :: t in tasks ==> t in Elems(tasks);
        tasks := tasks + [task];
        todo := todo - {task};
        pending := pending + {task};
      }
    }

    /** Whether there are tasks to be scheduled. */
    predicate Todo()
      reads this`todo
    {
      todo != {}
    }

    /** Evaluation is done on an error, or when no task is queued or pending. */
    predicate Done()
      reads this`err, this`todo, this`pending
    {
      err || (todo == {} && pending == {})
    }
  }
}
