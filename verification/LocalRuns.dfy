/**
 Evaluation over the local executor (exec/eval.go, exec/local.go): the
 evaluator's books and the executor's buffers, step by step and over whole runs.
 */
module LocalRuns {
  import TaskGraph
  import opened Compile
  import opened Waitlist
  import opened Evaluator
  import opened Evaluation
  import Probing
  import Runs
  import LocalExecutor

  /** All tasks start in their initial state. */
  function Initial(graph: TaskGraph.Graph): map<TaskGraph.Task, TaskGraph.TaskState> {
    map t | t in graph.nodes :: TaskGraph.Init
  }

  lemma Roots<V>(tasks: seq<Task<V>>, roots: seq<nat>)
    requires forall j: nat :: j < |roots| ==> roots[j] < |tasks|
    ensures forall r :: r in roots ==> r in GraphOf(tasks).nodes
  {
    forall r | r in roots
      ensures r in GraphOf(tasks).nodes
    {
      var j: nat :| j < |roots| && roots[j] == r;
    }
  }

  /** What happens in a run: the executor works, a task that it is through with is noticed, and is returned. */
  datatype Step =
    | Work(moves: seq<LocalExecutor.Move>)
    | Notice(task: nat)
    | Return(task: nat, moves: seq<LocalExecutor.Move>)

  ghost predicate Unfailed(st: LocalExecutor.States) {
    forall t :: t in st ==> !st[t].Err?
  }

  /**
   A task queued by the evaluator finds its inputs: the phases it depends on
   are finished, no task in them failed, and the buffers of finished tasks are
   there.
   */
  lemma ReadyIsAvailable<V(!new)>(tasks: seq<Task<V>>, s: Snap, stored: set<nat>, t: nat)
    requires Ordered(tasks) && GraphOf(tasks).WellFormed() && t < |tasks|
    requires s.st.Keys == GraphOf(tasks).nodes.Keys && LocalExecutor.Backed(s.st, stored)
    requires forall h :: h in GraphOf(tasks).Deps(t) ==> h in GraphOf(tasks).nodes && PhaseDone(GraphOf(tasks), s, h)
    requires forall h, u :: h in GraphOf(tasks).Deps(t) && u in GraphOf(tasks).Phase(h) && u in s.st ==> !s.st[u].Err?
    ensures LocalExecutor.Available(tasks, t, stored)
  {
    hide TaskGraph.Graph.WellFormed;
    forall i: nat | i < |tasks[t].deps|
      ensures DepBelow(tasks, tasks[t].deps[i], t) && LocalExecutor.DepAvailable(tasks, tasks[t].deps[i], stored)
    {
      TasksRead(tasks, t, i);
      DependencyAvailable(tasks, s, stored, t, i);
    }
  }

  lemma DependencyAvailable<V(!new)>(tasks: seq<Task<V>>, s: Snap, stored: set<nat>, t: nat, i: nat)
    requires Ordered(tasks) && GraphOf(tasks).WellFormed() && t < |tasks| && i < |tasks[t].deps|
    requires s.st.Keys == GraphOf(tasks).nodes.Keys && LocalExecutor.Backed(s.st, stored)
    requires var h := tasks[t].deps[i].head;
             && h in GraphOf(tasks).nodes && PhaseDone(GraphOf(tasks), s, h)
             && forall u :: u in GraphOf(tasks).Phase(h) && u in s.st ==> !s.st[u].Err?
    ensures DepBelow(tasks, tasks[t].deps[i], t) && LocalExecutor.DepAvailable(tasks, tasks[t].deps[i], stored)
  {
    hide TaskGraph.Graph.WellFormed;
    var d, phase := tasks[t].deps[i], GraphOf(tasks).Phase(tasks[t].deps[i].head);
    assert DepBelow(tasks, d, t);
    TasksRead(tasks, t, i);
    TaskGraph.CountNone(phase, Unfinished(s));
    forall j: nat | j < NumTask(tasks, d)
      ensures TaskOf(tasks, d, j) in stored
    {
      assert phase[j] == TaskOf(tasks, d, j);
      assert phase[j] in s.st && phase[j] !in Unfinished(s);
    }
  }

  /**
   What joins the evaluator's books to the executor's buffers. Without
   failures and losses, no task that was or is going to be run misses an
   input.
   */
  ghost predicate Linked<V(!new)>(tasks: seq<Task<V>>, s: Snap, stored: set<nat>, starved: set<nat>, stable: bool)
    requires Ordered(tasks)
  {
    && LocalExecutor.Backed(s.st, stored)
    && (forall t :: t in s.st && s.st[t].Err? ==> t in s.pending)
    && (stable && Unfailed(s.st) ==> starved == {} && LocalExecutor.Fed(tasks, s.todo + s.pending, stored))
  }

  /** Whatever a step queues is ready, and whatever it keeps was fed before. */
  lemma StillLinked<V(!new)>(tasks: seq<Task<V>>, s: Snap, s': Snap, stored: set<nat>, stored': set<nat>,
                             starved: set<nat>, starved': set<nat>, stable: bool)
    requires Ordered(tasks) && GraphOf(tasks).WellFormed() && Linked(tasks, s, stored, starved, stable)
    requires s'.st.Keys == GraphOf(tasks).nodes.Keys && LocalExecutor.Backed(s'.st, stored')
    requires forall t :: t in s'.st && s'.st[t].Err? ==> t in s'.pending
    requires Unfailed(s'.st) ==> Unfailed(s.st)
    requires s'.pending <= s.todo + s.pending && ReadyOnly(GraphOf(tasks), s, s')
    requires stable ==> stored <= stored'
    requires stable && LocalExecutor.Fed(tasks, s.todo + s.pending, stored) ==> starved' == starved
    ensures Linked(tasks, s', stored', starved', stable)
  {
    hide Ordered, TaskGraph.Graph.WellFormed, LocalExecutor.Available, PhaseDone, GraphOf;
    if stable && Unfailed(s'.st) {
      LocalExecutor.StillFed(tasks, s.todo + s.pending, stored, stored');
      forall t | t in s'.todo + s'.pending && t < |tasks|
        ensures LocalExecutor.Available(tasks, t, stored')
      {
        if t !in s.todo + s.pending {
          QueuedIsAvailable(tasks, s, s', stored', t);
        }
      }
    }
  }

  lemma QueuedIsAvailable<V(!new)>(tasks: seq<Task<V>>, s: Snap, s': Snap, stored: set<nat>, t: nat)
    requires Ordered(tasks) && GraphOf(tasks).WellFormed() && t < |tasks|
    requires s'.st.Keys == GraphOf(tasks).nodes.Keys && LocalExecutor.Backed(s'.st, stored)
    requires ReadyOnly(GraphOf(tasks), s, s') && t in s'.todo - s.todo && Unfailed(s'.st)
    ensures LocalExecutor.Available(tasks, t, stored)
  {
    hide Ordered, TaskGraph.Graph.WellFormed, LocalExecutor.Available, PhaseDone, NodeOf;
    ReadyIsAvailable(tasks, s', stored, t);
  }

  /** The executor worked, and a task may have been returned that did not fail. */
  lemma WorkLinked<V(!new)>(tasks: seq<Task<V>>, s: Snap, s': Snap, site: LocalExecutor.Site, site': LocalExecutor.Site,
                            stable: bool)
    requires Ordered(tasks) && GraphOf(tasks).WellFormed() && Linked(tasks, s, site.stored, site.starved, stable)
    requires s.st.Keys == GraphOf(tasks).nodes.Keys && site.st == s.st && site'.st == s'.st
    requires s'.pending <= s.pending && forall t :: t in s.pending - s'.pending ==> t in s.st && !s.st[t].Err?
    requires LocalExecutor.Sound(tasks, site, site', s'.pending, stable) && ReadyOnly(GraphOf(tasks), s, s')
    ensures Linked(tasks, s', site'.stored, site'.starved, stable)
  {
    hide Ordered, TaskGraph.Graph.WellFormed, LocalExecutor.Available, GraphOf, ReadyOnly;
    StillLinked(tasks, s, s', site.stored, site'.stored, site.starved, site'.starved, stable);
  }

  /** Tasks were handed out. */
  lemma LaunchLinked<V(!new)>(tasks: seq<Task<V>>, s: Snap, s': Snap, l: Ledger, l': Ledger, stored: set<nat>,
                              starved: set<nat>, stable: bool)
    requires Ordered(tasks) && GraphOf(tasks).WellFormed() && Linked(tasks, s, stored, starved, stable)
    requires s.st.Keys == GraphOf(tasks).nodes.Keys && s.todo !! s.pending && Launched(s, s', l, l')
    ensures Linked(tasks, s', stored, starved, stable)
  {
    hide Ordered, TaskGraph.Graph.WellFormed, LocalExecutor.Available, GraphOf, LocalExecutor.Fed;
    StillLinked(tasks, s, s', stored, stored, starved, starved, stable);
  }

  /** A task was given up, or is known to be finished. */
  lemma SettleLinked<V(!new)>(tasks: seq<Task<V>>, s: Snap, s': Snap, l: Ledger, l': Ledger, stored: set<nat>,
                              starved: set<nat>, stable: bool, t: nat)
    requires Ordered(tasks) && GraphOf(tasks).WellFormed() && Linked(tasks, s, stored, starved, stable)
    requires s.st.Keys == GraphOf(tasks).nodes.Keys && t in s.pending && t in s.st && t in l.consecutiveLost
    requires Settled(s, s', l, l', t)
    ensures Linked(tasks, s', stored, starved, stable)
  {
    hide Ordered, TaskGraph.Graph.WellFormed, LocalExecutor.Available, GraphOf, LocalExecutor.Fed;
    StillLinked(tasks, s, s', stored, stored, starved, starved, stable);
  }

  /** Nothing is stored and nothing has run. */
  lemma StartLinked<V(!new)>(tasks: seq<Task<V>>, s: Snap, stable: bool)
    requires Ordered(tasks) && GraphOf(tasks).WellFormed() && s.pending == {}
    requires s.st == Initial(GraphOf(tasks))
    requires ReadyOnly(GraphOf(tasks), Snap(map[], map[], {}, {}, s.st, {}), s)
    ensures Linked(tasks, s, {}, {}, stable)
  {
    hide Ordered, TaskGraph.Graph.WellFormed, LocalExecutor.Available, PhaseDone, NodeOf;
    StillLinked(tasks, Snap(map[], map[], {}, {}, s.st, {}), s, {}, {}, {}, {}, stable);
  }

  /** The link while an evaluation is going on. */
  ghost predicate Joined<V(!new)>(e: Evaluation, x: LocalExecutor.Executor<V>, starved: set<nat>)
    reads e, e.s, x
  {
    && e.Valid() && x.Valid() && e.s.g == GraphOf(x.tasks) && GraphOf(x.tasks).WellFormed()
    && (!e.s.err ==> Linked(x.tasks, e.s.Now(), x.buffers.Keys, starved, e.stable))
  }

  lemma JoinedFacts<V(!new)>(e: Evaluation, x: LocalExecutor.Executor<V>, starved: set<nat>)
    requires Joined(e, x, starved) && !e.s.err
    ensures e.s.st.Keys == GraphOf(x.tasks).nodes.Keys && e.s.pending <= e.s.st.Keys && e.s.todo !! e.s.pending
    ensures e.waiting <= e.s.pending && e.donec <= e.s.pending && e.consecutiveLost.Keys == e.s.st.Keys
    ensures forall t :: t in e.s.st ==> t < |x.tasks|
    ensures LocalExecutor.Backed(e.s.st, x.buffers.Keys)
  {
    BooksFacts(e.s.g, e.s.Now(), e.Books(), e.roots, e.stable);
  }

  lemma StartJoined<V(!new)>(e: Evaluation, x: LocalExecutor.Executor<V>)
    requires e.Valid() && x.Valid() && e.s.g == GraphOf(x.tasks) && GraphOf(x.tasks).WellFormed()
    requires x.buffers == map[] && e.s.pending == {} && e.s.st == Initial(GraphOf(x.tasks))
    requires ReadyOnly(e.s.g, Snap(map[], map[], {}, {}, e.s.st, {}), e.s.Now())
    ensures Joined(e, x, {})
  {
    hide Inv, Accounts, Ordered, GraphOf, LocalExecutor.Available, Linked, TaskGraph.Graph.WellFormed;
    StartLinked(x.tasks, e.s.Now(), e.stable);
    assert x.buffers.Keys == {};
  }

  /** An idle evaluation without an error has no failed task left, since those are pending until they are returned. */
  lemma EndJoined<V(!new)>(e: Evaluation, x: LocalExecutor.Executor<V>, roots: seq<nat>, starved: set<nat>)
    requires Joined(e, x, starved) && e.roots == Elems(roots)
    ensures x.Valid()
    ensures e.s.Done() && !e.s.err && e.stable ==> starved == {} && forall r :: r in roots ==> r in x.buffers
  {
    hide Inv, Accounts, Ordered, GraphOf, LocalExecutor.Available, TaskGraph.Graph.WellFormed;
    Conclude(e.s.g, e.s.Now(), e.Books(), roots, e.s.err, e.stable);
  }

  lemma LaunchedFacts(s: Snap, s': Snap, l: Ledger, l': Ledger)
    requires Launched(s, s', l, l')
    ensures s'.todo == {}
  {
  }

  lemma InitialFacts(graph: TaskGraph.Graph)
    ensures Initial(graph).Keys == graph.nodes.Keys
    ensures forall t :: t in Initial(graph) ==> Initial(graph)[t].Live()
  {
  }

  // The run as the evaluator sees it.

  /** The tasks whose state changed. */
  ghost function Changed(st: LocalExecutor.States, later: LocalExecutor.States): LocalExecutor.States {
    map t | t in later && (t !in st || later[t] != st[t]) :: later[t]
  }

  lemma OverlayChanged(st: LocalExecutor.States, later: LocalExecutor.States)
    requires later.Keys == st.Keys
    ensures Overlay(st, Changed(st, later)) == later
    ensures later == st ==> Changed(st, later) == map[]
  {
  }

  /** The event that a step is for the evaluator. */
  ghost function EventOf(step: Step, st: LocalExecutor.States, later: LocalExecutor.States): Event {
    match step
    case Work(moves) =>
      if later == st && |moves| == 1 && moves[0].Execute? then Event.Move(map[moves[0].task := TaskGraph.Ok])
      else Event.Move(Changed(st, later))
    case Notice(t) => Event.Settle(t)
    case Return(t, _) => Event.Deliver(t, Changed(st, later))
  }

  lemma NoticeStands(task: nat, st: LocalExecutor.States, later: LocalExecutor.States)
    ensures EventOf(Notice(task), st, later) == Event.Settle(task) && Gentle(Event.Settle(task))
    ensures Stands(Notice(task), Event.Settle(task))
  {
  }

  /** Running, noticing and returning one task are just that for the evaluator. */
  ghost predicate Stands(step: Step, event: Event) {
    && (forall t :: step == Work([LocalExecutor.Execute(t)]) ==>
          event == Event.Move(map[t := TaskGraph.Ok]) || event == Event.Move(map[t := TaskGraph.Lost]))
    && (forall t :: step == Notice(t) ==> event == Event.Settle(t))
    && (forall t :: step == Return(t, []) ==> event == Event.Deliver(t, map[]))
  }

  /** The executor's work is a move of the evaluation. */
  lemma WorkTook<V(!new)>(tasks: seq<Task<V>>, moves: seq<LocalExecutor.Move>, m: Moment, m': Moment,
                          site: LocalExecutor.Site, stable: bool)
    requires Ordered(tasks) && Runs.Light(m) && site.st == m.s.st && LocalExecutor.Backed(site.st, site.stored)
    requires m' == m.(s := m.s.(st := LocalExecutor.Worked(tasks, moves, site, m.s.pending, stable).st))
    requires forall t :: t in m.s.st ==> t < |tasks|
    ensures Took(m, EventOf(Work(moves), m.s.st, m'.s.st), m', stable)
    ensures Stands(Work(moves), EventOf(Work(moves), m.s.st, m'.s.st))
  {
    hide Ordered, LocalExecutor.Available, LocalExecutor.Fed, LocalExecutor.Worked;
    LocalExecutor.WorkIsSound(tasks, moves, site, m.s.pending, stable);
    OverlayChanged(m.s.st, m'.s.st);
    if |moves| == 1 && moves[0].Execute? {
      assert moves == [LocalExecutor.Execute(moves[0].task)];
      OneRun(tasks, moves[0].task, site, m.s.pending, stable);
      RunTook(tasks, moves[0].task, m, m', site, stable);
    }
  }

  lemma OneRun<V(!new)>(tasks: seq<Task<V>>, t: nat, site: LocalExecutor.Site, pending: set<nat>, stable: bool)
    requires Ordered(tasks)
    ensures var move := LocalExecutor.Execute(t);
            var st := LocalExecutor.Worked(tasks, [move], site, pending, stable).st;
            if t < |tasks| && move.Possible(site.st, pending, stable)
            then st == site.st[t := TaskGraph.Ok] || st == site.st[t := TaskGraph.Lost]
            else st == site.st
  {
    hide Ordered, LocalExecutor.Available;
    var move := LocalExecutor.Execute(t);
    assert [move][..0] == [];
    assert LocalExecutor.Worked(tasks, [move], site, pending, stable) ==
           LocalExecutor.Moved(tasks, move, LocalExecutor.Worked(tasks, [], site, pending, stable), pending, stable);
  }

  lemma RunTook<V(!new)>(tasks: seq<Task<V>>, t: nat, m: Moment, m': Moment, site: LocalExecutor.Site, stable: bool)
    requires Ordered(tasks) && Runs.Light(m) && site.st == m.s.st && m' == m.(s := m.s.(st := m'.s.st))
    requires forall u :: u in m.s.st ==> u < |tasks|
    requires if t in m.s.st && t in m.s.pending && m.s.st[t].InFlight()
             then m'.s.st == m.s.st[t := TaskGraph.Ok] || m'.s.st == m.s.st[t := TaskGraph.Lost]
             else m'.s.st == m.s.st
    ensures m'.s.st != m.s.st ==> Changed(m.s.st, m'.s.st) == map[t := TaskGraph.Ok] ||
                                  Changed(m.s.st, m'.s.st) == map[t := TaskGraph.Lost]
    ensures m'.s.st == m.s.st ==> Took(m, Event.Move(map[t := TaskGraph.Ok]), m', stable)
  {
    if m'.s.st == m.s.st {
      var changes := map[t := TaskGraph.Ok];
      if Allowed(m.s, m.s.pending, changes, stable) {
        if t in m.s.st {
          assert Moves(t in m.s.pending, m.s.st[t], Overlay(m.s.st, changes)[t]);
        }
        assert Overlay(m.s.st, changes) == m.s.st;
      }
    }
  }

  lemma MomentLight(e: Evaluation)
    requires e.Valid()
    ensures Runs.Light(e.Now())
  {
    hide Inv, Accounts, Runs.Light;
    Runs.SaneIsLight(e.s.g, e.roots, e.stable, e.Now());
  }

  /** All runnable tasks are handed to the executor. */
  method Launch<V(!new)>(e: Evaluation, x: LocalExecutor.Executor<V>, ghost starved: set<nat>)
    requires Joined(e, x, starved) && !e.s.err
    modifies e, e.s
    ensures Joined(e, x, starved) && !e.s.err && !e.s.Todo()
    ensures Launched(old(e.s.Now()), e.s.Now(), old(e.Books()), e.Books())
  {
    hide Inv, Accounts, Ordered, GraphOf, Linked, LocalExecutor.Fed, MayBecome, StaysOk, Launched, Settled, ReadyOnly;
    JoinedFacts(e, x, starved);
    ghost var s0, l0 := e.s.Now(), e.Books();
    e.Dispatch();
    LaunchedFacts(s0, e.s.Now(), l0, e.Books());
    LaunchLinked(x.tasks, s0, e.s.Now(), l0, e.Books(), x.buffers.Keys, starved, e.stable);
  }

  /** The states, buffers and starved tasks of a run. */
  ghost function SiteOf<V(!new)>(e: Evaluation, x: LocalExecutor.Executor<V>, starved: set<nat>): LocalExecutor.Site
    reads e, e.s, x
  {
    LocalExecutor.Site(e.s.st, x.buffers.Keys, starved)
  }

  /** The executor works. */
  method Execute<V(!new)>(e: Evaluation, x: LocalExecutor.Executor<V>, moves: seq<LocalExecutor.Move>,
                          ghost starved: set<nat>)
    returns (ghost starved': set<nat>)
    requires Joined(e, x, starved) && !e.s.err
    modifies e.s, x
    ensures Joined(e, x, starved') && !e.s.err
    ensures SiteOf(e, x, starved') ==
            LocalExecutor.Worked(x.tasks, moves, old(SiteOf(e, x, starved)), old(e.s.pending), e.stable)
    ensures e.Now() == old(e.Now()).(s := old(e.s.Now()).(st := e.s.st))
  {
    hide Inv, Accounts, Ordered, GraphOf, Linked, LocalExecutor.Fed, MayBecome, StaysOk, ReadyOnly,
         LocalExecutor.Worked;
    JoinedFacts(e, x, starved);
    ghost var s0, site := e.s.Now(), SiteOf(e, x, starved);
    LocalExecutor.WorkIsSound(x.tasks, moves, site, e.s.pending, e.stable);
    var later;
    later, starved' := x.Work(moves, e.s.st, e.s.pending, e.stable, starved);
    e.HandleMove(later);
    NothingQueued(e.s.g, s0, e.s.Now());
    WorkLinked(x.tasks, s0, e.s.Now(), site, SiteOf(e, x, starved'), e.stable);
  }

  /** A task that the executor is through with is returned, while the executor goes on, unless the task failed. */
  method TakeBack<V(!new)>(e: Evaluation, x: LocalExecutor.Executor<V>, task: nat, moves: seq<LocalExecutor.Move>,
                           ghost starved: set<nat>)
    returns (ghost starved': set<nat>)
    requires Joined(e, x, starved) && !e.s.err
    modifies e, e.s, x
    ensures Joined(e, x, starved')
    ensures if old(task in e.donec)
            then && old(task in e.s.st)
                 && e.Books() == old(e.Books()).(donec := old(e.donec) - {task},
                                                 returned := old(e.returned) + multiset{task})
                 && e.s.pending == old(e.s.pending) - {task} && e.s.err == old(e.s.st)[task].Err?
                 && SiteOf(e, x, starved') == if e.s.err then old(SiteOf(e, x, starved)) else
                      LocalExecutor.Worked(x.tasks, moves, old(SiteOf(e, x, starved)), e.s.pending, e.stable)
            else e.Now() == old(e.Now()) && x.buffers == old(x.buffers) && starved' == starved
  {
    hide Inv, Accounts, Ordered, GraphOf, Linked, LocalExecutor.Fed, MayBecome, StaysOk, ReadyOnly,
         LocalExecutor.Worked;
    JoinedFacts(e, x, starved);
    starved' := starved;
    if task !in e.donec {
      return;
    }
    ghost var s0, site := e.s.Now(), SiteOf(e, x, starved);
    if e.s.st[task].Err? {
      StandStill(e.s.st, e.s.pending - {task});
      e.HandleDeliver(task, e.s.st);
      return;
    }
    LocalExecutor.WorkIsSound(x.tasks, moves, site, e.s.pending - {task}, e.stable);
    var later;
    later, starved' := x.Work(moves, e.s.st, e.s.pending - {task}, e.stable, starved);
    e.HandleDeliver(task, later);
    WorkLinked(x.tasks, s0, e.s.Now(), site, SiteOf(e, x, starved'), e.stable);
  }

  /** The executor is through with a task. */
  method NoticeTask<V(!new)>(e: Evaluation, x: LocalExecutor.Executor<V>, task: nat, ghost starved: set<nat>)
    requires Joined(e, x, starved) && !e.s.err
    modifies e, e.s
    ensures Joined(e, x, starved) && !e.s.err && Took(old(e.Now()), Event.Settle(task), e.Now(), e.stable)
  {
    hide Inv, Accounts, Ordered, GraphOf, Linked, LocalExecutor.Fed, MayBecome, StaysOk, Launched, Settled, ReadyOnly;
    JoinedFacts(e, x, starved);
    ghost var s0, l0 := e.s.Now(), e.Books();
    e.HandleSettle(task);
    if task in l0.waiting && !s0.st[task].InFlight() {
      SettleLinked(x.tasks, s0, e.s.Now(), l0, e.Books(), x.buffers.Keys, starved, e.stable, task);
    }
  }

  /** A return, with the work of the executor, is a delivery. */
  lemma ReturnTook<V(!new)>(tasks: seq<Task<V>>, task: nat, moves: seq<LocalExecutor.Move>, m: Moment, m': Moment,
                            site: LocalExecutor.Site, stable: bool)
    requires Ordered(tasks) && !m.err && site.st == m.s.st && LocalExecutor.Backed(site.st, site.stored)
    requires if task in m.l.donec
             then && task in m.s.st
                  && m'.l == m.l.(donec := m.l.donec - {task}, returned := m.l.returned + multiset{task})
                  && m'.s.pending == m.s.pending - {task} && m'.err == m.s.st[task].Err?
                  && m'.s.st == if m'.err then m.s.st
                                else LocalExecutor.Worked(tasks, moves, site, m'.s.pending, stable).st
             else m' == m
    ensures Took(m, EventOf(Return(task, moves), m.s.st, m'.s.st), m', stable)
    ensures Stands(Return(task, moves), EventOf(Return(task, moves), m.s.st, m'.s.st))
  {
    hide Ordered, LocalExecutor.Available, LocalExecutor.Fed, LocalExecutor.Worked;
    LocalExecutor.WorkIsSound(tasks, moves, site, m.s.pending - {task}, stable);
    OverlayChanged(m.s.st, m'.s.st);
    StandStill(m.s.st, m.s.pending - {task});
    if moves == [] {
      NoWork(tasks, site, m.s.pending - {task}, stable);
    }
  }

  lemma NoWork<V(!new)>(tasks: seq<Task<V>>, site: LocalExecutor.Site, pending: set<nat>, stable: bool)
    requires Ordered(tasks)
    ensures LocalExecutor.Worked(tasks, [], site, pending, stable) == site
  {
  }

  /** Nothing but starting and running tasks. */
  ghost predicate OnlyRuns(step: Step) {
    step.Notice? || LocalExecutor.OnlyRuns(step.moves)
  }

  /** The changes are for tasks to run and to complete. */
  ghost predicate Gentle(event: Event) {
    event.Settle? || forall t :: t in event.changes ==> event.changes[t].Running? || event.changes[t].Ok?
  }

  lemma GentleWork<V(!new)>(tasks: seq<Task<V>>, moves: seq<LocalExecutor.Move>, s: Snap, site: LocalExecutor.Site,
                            later: LocalExecutor.States, stable: bool)
    requires Ordered(tasks) && site.st == s.st && Linked(tasks, s, site.stored, site.starved, stable)
    requires later == LocalExecutor.Worked(tasks, moves, site, s.pending, stable).st
    ensures stable && Unfailed(s.st) && OnlyRuns(Work(moves)) ==> Gentle(EventOf(Work(moves), s.st, later))
  {
    hide Ordered, LocalExecutor.Available, LocalExecutor.Worked;
    if stable && Unfailed(s.st) && LocalExecutor.OnlyRuns(moves) {
      LocalExecutor.RunsGoOn(tasks, moves, site, s.pending);
    }
  }

  lemma GentleReturn<V(!new)>(tasks: seq<Task<V>>, task: nat, moves: seq<LocalExecutor.Move>, m: Moment,
                              site: LocalExecutor.Site, m': Moment, stable: bool)
    requires Ordered(tasks) && site.st == m.s.st && Linked(tasks, m.s, site.stored, site.starved, stable)
    requires if task in m.l.donec
             then m'.s.st == if m'.err then m.s.st
                             else LocalExecutor.Worked(tasks, moves, site, m.s.pending - {task}, stable).st
             else m'.s.st == m.s.st
    ensures stable && Unfailed(m.s.st) && OnlyRuns(Return(task, moves)) ==>
              Gentle(EventOf(Return(task, moves), m.s.st, m'.s.st))
  {
    hide Ordered, LocalExecutor.Available, LocalExecutor.Worked;
    if stable && Unfailed(m.s.st) && LocalExecutor.OnlyRuns(moves) {
      LocalExecutor.RunsGoOn(tasks, moves, site, m.s.pending - {task});
    }
  }

  lemma FactsOf<V(!new)>(e: Evaluation, x: LocalExecutor.Executor<V>, starved: set<nat>)
    requires Joined(e, x, starved) && !e.s.err
    ensures Runs.Light(e.Now()) && x.Valid() && Ordered(x.tasks)
    ensures Linked(x.tasks, e.s.Now(), x.buffers.Keys, starved, e.stable)
    ensures forall t :: t in e.s.st ==> t < |x.tasks|
    ensures LocalExecutor.Backed(e.s.st, x.buffers.Keys)
  {
    hide Inv, Accounts, Linked, Runs.Light, Ordered;
    MomentLight(e);
    JoinedFacts(e, x, starved);
  }

  /** One step of a run is one event. */
  method TakeStep<V(!new)>(e: Evaluation, x: LocalExecutor.Executor<V>, step: Step, ghost starved: set<nat>)
    returns (ghost starved': set<nat>, ghost event: Event)
    requires Joined(e, x, starved) && !e.s.err
    modifies e, e.s, x
    ensures Joined(e, x, starved') && Took(old(e.Now()), event, e.Now(), e.stable) && Stands(step, event)
    ensures e.stable && Unfailed(old(e.s.st)) && OnlyRuns(step) ==> Gentle(event)
  {
    hide Inv, Accounts, Ordered, GraphOf, Linked, Took, LocalExecutor.Fed, LocalExecutor.Worked, Stands, EventOf,
         Gentle, Unfailed, OnlyRuns, Joined;
    FactsOf(e, x, starved);
    ghost var m, site := e.Now(), SiteOf(e, x, starved);
    match step {
      case Work(moves) =>
        starved' := Execute(e, x, moves, starved);
        WorkTook(x.tasks, moves, m, e.Now(), site, e.stable);
        GentleWork(x.tasks, moves, m.s, site, e.Now().s.st, e.stable);
      case Notice(task) =>
        NoticeTask(e, x, task, starved);
        starved' := starved;
        NoticeStands(task, m.s.st, e.s.st);
      case Return(task, moves) =>
        starved' := TakeBack(e, x, task, moves, starved);
        ReturnTook(x.tasks, task, moves, m, e.Now(), site, e.stable);
        GentleReturn(x.tasks, task, moves, m, site, e.Now(), e.stable);
    }
    event := EventOf(step, m.s.st, e.s.st);
  }

  // Whole runs.

  /** The steps run task t, notice that it is through, and return it, with others in between. */
  ghost predicate Serves(steps: seq<Step>, t: nat) {
    exists i: nat, j: nat, k: nat :: ServesAt(steps, t, i, j, k)
  }

  ghost predicate ServesAt(steps: seq<Step>, t: nat, i: nat, j: nat, k: nat) {
    && i < j < k < |steps| && steps[i] == Work([LocalExecutor.Execute(t)])
    && steps[j] == Notice(t) && steps[k] == Return(t, [])
  }

  ghost predicate ServesAll(steps: seq<Step>, ts: set<nat>) {
    forall t :: t in ts ==> Serves(steps, t)
  }

  /** The script starts with n rounds, one after the other, and each of them serves all tasks. */
  ghost predicate Rounds(script: seq<Step>, ts: set<nat>, n: nat) {
    n == 0 || exists k: nat :: k <= |script| && ServesAll(script[..k], ts) && Rounds(script[k..], ts, n - 1)
  }

  ghost predicate AllStand(script: seq<Step>, events: seq<Event>) {
    |events| == |script| && forall i: nat :: i < |script| ==> Stands(script[i], events[i])
  }

  lemma ServesStand(script: seq<Step>, events: seq<Event>, t: nat)
    requires AllStand(script, events) && Serves(script, t)
    ensures Runs.Serves(events, t)
  {
    hide Stands;
    var i: nat, j: nat, k: nat :| ServesAt(script, t, i, j, k);
    var to := StandsFor(script, events, t, i, j, k);
    assert Runs.ServesAt(events, t, i, j, k, to);
  }

  lemma StandsFor(script: seq<Step>, events: seq<Event>, t: nat, i: nat, j: nat, k: nat)
    returns (to: TaskGraph.TaskState)
    requires AllStand(script, events) && ServesAt(script, t, i, j, k)
    ensures (to.Ok? || to.Lost?) && events[i] == Event.Move(map[t := to])
    ensures events[j] == Event.Settle(t) && events[k] == Event.Deliver(t, map[])
  {
    assert Stands(script[i], events[i]) && Stands(script[j], events[j]) && Stands(script[k], events[k]);
    to := if events[i] == Event.Move(map[t := TaskGraph.Ok]) then TaskGraph.Ok else TaskGraph.Lost;
  }

  lemma {:induction false} RoundsStand(script: seq<Step>, events: seq<Event>, ts: set<nat>, n: nat)
    requires AllStand(script, events) && Rounds(script, ts, n)
    ensures Runs.Rounds(events, ts, n)
    decreases n
  {
    hide Stands, Serves, Runs.Serves;
    if n > 0 {
      var k: nat :| k <= |script| && ServesAll(script[..k], ts) && Rounds(script[k..], ts, n - 1);
      forall t | t in ts
        ensures Runs.Serves(events[..k], t)
      {
        ServesStand(script[..k], events[..k], t);
      }
      assert Runs.ServesAll(events[..k], ts);
      RoundsStand(script[k..], events[k..], ts, n - 1);
    }
  }

  /** What a step stands for when nothing happens any more. */
  ghost function Default(step: Step): Event {
    EventOf(step, map[], map[])
  }

  lemma DefaultStands(step: Step)
    ensures Stands(step, Default(step)) && Gentle(Default(step))
  {
  }

  /** The script of events: those of the turns, and then what the remaining steps would be. */
  ghost function Events(script: seq<Step>, trace: seq<Runs.Turn>): seq<Event>
    requires |trace| <= |script|
  {
    seq(|script|, i requires 0 <= i < |script| => if i < |trace| then trace[i].event else Default(script[i]))
  }

  ghost predicate OnlyRunning(script: seq<Step>) {
    forall i: nat :: i < |script| ==> OnlyRuns(script[i])
  }

  /** A local run as a run of the evaluator. */
  ghost predicate Traced(script: seq<Step>, trace: seq<Runs.Turn>, stable: bool) {
    && |trace| <= |script| && (forall i: nat :: i < |trace| ==> Stands(script[i], trace[i].event))
    && (stable && OnlyRunning(script) ==> forall i: nat :: i < |trace| ==> Gentle(trace[i].event))
  }

  lemma EventsFollow(script: seq<Step>, trace: seq<Runs.Turn>, last: Moment, stable: bool)
    requires Traced(script, trace, stable) && (|trace| < |script| ==> last.Over())
    ensures Runs.Follows(trace, last, Events(script, trace)) && AllStand(script, Events(script, trace))
    ensures stable && OnlyRunning(script) ==> Runs.Smooth(Events(script, trace))
  {
    hide Stands, Gentle, Default, OnlyRunning;
    var events := Events(script, trace);
    forall i: nat | i < |events|
      ensures Stands(script[i], events[i])
      ensures stable && OnlyRunning(script) ==> Gentle(events[i])
    {
      DefaultStands(script[i]);
    }
    if stable && OnlyRunning(script) {
      GentleIsSmooth(events);
    }
  }

  lemma GentleIsSmooth(events: seq<Event>)
    requires forall i: nat :: i < |events| ==> Gentle(events[i])
    ensures Runs.Smooth(events)
  {
  }

  /** While nothing but running happens, nothing has failed. */
  lemma StillUnfailed(g: TaskGraph.Graph, roots: set<nat>, stable: bool, script: seq<Step>, trace: seq<Runs.Turn>,
                      now: Moment)
    requires Runs.Ran(g, roots, stable, trace, now) && Runs.Fresh(Runs.At(trace, now, 0))
    requires Traced(script, trace, stable) && stable && OnlyRunning(script)
    ensures Unfailed(now.s.st)
  {
    hide Runs.Ran, Runs.Fresh, Stands, Gentle;
    var events := seq(|trace|, i requires 0 <= i < |trace| => trace[i].event);
    GentleIsSmooth(events);
    Runs.CalmAll(g, roots, stable, trace, now, |trace|, events);
  }

  lemma TracedMore(script: seq<Step>, trace: seq<Runs.Turn>, stable: bool, turn: Runs.Turn)
    requires Traced(script, trace, stable) && |trace| < |script| && Stands(script[|trace|], turn.event)
    requires stable && OnlyRunning(script) ==> Gentle(turn.event)
    ensures Traced(script, trace + [turn], stable)
  {
    hide Stands, Gentle;
  }

  /** A local evaluation that has gone through some turns. */
  ghost predicate Underway<V(!new)>(e: Evaluation, x: LocalExecutor.Executor<V>, roots: seq<nat>, stable: bool,
                                    starved: set<nat>, script: seq<Step>, trace: seq<Runs.Turn>)
    reads e, e.s, x
  {
    && Joined(e, x, starved) && Runs.Going(e, GraphOf(x.tasks), roots, stable, trace)
    && Traced(script, trace, stable)
  }

  /** Hands out what is queued, if there is anything. */
  method Resume<V(!new)>(e: Evaluation, x: LocalExecutor.Executor<V>, ghost starved: set<nat>)
    requires Joined(e, x, starved)
    modifies e, e.s
    ensures Joined(e, x, starved) && Runs.Resumed(old(e.Now()), e.Now())
  {
    hide Inv, Accounts, Linked, Launched, Ordered, GraphOf;
    if !e.s.err && e.s.Todo() {
      Launch(e, x, starved);
    }
  }

  /** Enqueues the roots and hands out what is ready. */
  method Begin<V(!new)>(x: LocalExecutor.Executor<V>, roots: seq<nat>, stable: bool, ghost script: seq<Step>)
    returns (e: Evaluation)
    requires x.Valid() && x.buffers == map[] && GraphOf(x.tasks).WellFormed()
    requires forall j: nat :: j < |roots| ==> roots[j] < |x.tasks|
    ensures fresh(e) && fresh(e.s) && Underway(e, x, roots, stable, {}, script, [])
  {
    hide *;
    var graph := GraphOf(x.tasks);
    Roots(x.tasks, roots);
    InitialFacts(graph);
    e := new Evaluation(graph, Initial(graph), roots, stable);
    StartJoined(e, x);
    ghost var m := e.Now();
    Began(e, graph);
    Resume(e, x, {});
    BeginUnderway(e, x, roots, stable, script, m);
  }

  lemma Began(e: Evaluation, graph: TaskGraph.Graph)
    requires e.Valid() && !e.s.err && e.submitted == multiset{} && e.returned == multiset{} && e.s.pending == {}
    requires forall t :: t in e.consecutiveLost ==> e.consecutiveLost[t] == 0
    requires e.s.st == Initial(graph)
    ensures Starting(e.Now(), e.s.g, e.roots, e.stable)
  {
    hide Inv, Accounts;
  }

  /** Nothing was handed out yet. */
  ghost predicate Starting(m: Moment, g: TaskGraph.Graph, roots: set<nat>, stable: bool) {
    && Runs.Sane(g, roots, stable, m) && !m.err
    && m.l.returned == multiset{} && m.l.submitted == multiset{} && m.s.pending == {}
    && (forall t :: t in m.l.consecutiveLost ==> m.l.consecutiveLost[t] == 0)
    && (forall t :: t in m.s.st ==> m.s.st[t].Live())
  }

  lemma BeginUnderway<V(!new)>(e: Evaluation, x: LocalExecutor.Executor<V>, roots: seq<nat>, stable: bool,
                               script: seq<Step>, m: Moment)
    requires Joined(e, x, {}) && e.roots == Elems(roots) && e.stable == stable && e.s.g == GraphOf(x.tasks)
    requires Starting(m, GraphOf(x.tasks), Elems(roots), stable) && Runs.Resumed(m, e.Now())
    ensures Underway(e, x, roots, stable, {}, script, [])
  {
    hide Inv, Accounts, Linked, Runs.Resumed, Runs.Ran, Runs.Fresh, Ordered, GraphOf;
    Runs.RanNothing(e.s.g, e.roots, stable, m, e.Now());
  }

  lemma JoinedSane<V(!new)>(e: Evaluation, x: LocalExecutor.Executor<V>, starved: set<nat>)
    requires Joined(e, x, starved)
    ensures e.s.g == GraphOf(x.tasks) && Runs.Sane(e.s.g, e.roots, e.stable, e.Now())
  {
    hide Inv, Accounts, Linked, Ordered, GraphOf;
  }

  lemma BeforeTurn<V(!new)>(e: Evaluation, x: LocalExecutor.Executor<V>, roots: seq<nat>, stable: bool,
                            starved: set<nat>, script: seq<Step>, trace: seq<Runs.Turn>)
    requires Underway(e, x, roots, stable, starved, script, trace) && !e.s.Done() && |trace| < |script|
    ensures Joined(e, x, starved) && !e.s.err && !e.Now().Over() && e.s.g == GraphOf(x.tasks)
    ensures e.roots == Elems(roots) && e.stable == stable && Traced(script, trace, stable)
    ensures Runs.Ran(e.s.g, e.roots, stable, trace, e.Now()) && Runs.Fresh(Runs.At(trace, e.Now(), 0))
    ensures stable && OnlyRunning(script) ==> Unfailed(e.s.st) && OnlyRuns(script[|trace|])
  {
    hide Inv, Accounts, Joined, Ordered, GraphOf, Runs.Ran, Runs.Fresh, Traced, Unfailed, OnlyRuns;
    JoinedSane(e, x, starved);
    if stable && OnlyRunning(script) {
      StillUnfailed(e.s.g, e.roots, stable, script, trace, e.Now());
    }
  }

  lemma AfterTurn<V(!new)>(e: Evaluation, x: LocalExecutor.Executor<V>, roots: seq<nat>, stable: bool,
                           starved: set<nat>, script: seq<Step>, trace: seq<Runs.Turn>, turn: Runs.Turn)
    requires Joined(e, x, starved) && e.roots == Elems(roots) && e.stable == stable
    requires Runs.Ran(e.s.g, e.roots, stable, trace, turn.before) && !turn.before.Over()
    requires Runs.Fresh(Runs.At(trace, turn.before, 0)) && Traced(script, trace, stable) && |trace| < |script|
    requires Runs.Sane(e.s.g, e.roots, stable, turn.after) && Took(turn.before, turn.event, turn.after, stable)
    requires Runs.Resumed(turn.after, e.Now()) && Stands(script[|trace|], turn.event)
    requires stable && OnlyRunning(script) ==> Gentle(turn.event)
    ensures Underway(e, x, roots, stable, starved, script, trace + [turn])
  {
    hide Inv, Accounts, Linked, Ordered, GraphOf, Took, Runs.Ran, Runs.Fresh, Runs.Resumed, Runs.Sane, Stands, Gentle,
         Traced, OnlyRunning;
    JoinedSane(e, x, starved);
    Runs.MakeTurn(e.s.g, e.roots, stable, trace, turn, e.Now());
    TracedMore(script, trace, stable, turn);
    assert Runs.At(trace + [turn], e.Now(), 0) == Runs.At(trace, turn.before, 0);
  }

  /** One turn of the loop. */
  method TakeTurn<V(!new)>(e: Evaluation, x: LocalExecutor.Executor<V>, step: Step, ghost roots: seq<nat>,
                           ghost stable: bool, ghost starved: set<nat>, ghost script: seq<Step>,
                           ghost trace: seq<Runs.Turn>)
    returns (ghost starved': set<nat>, ghost trace': seq<Runs.Turn>)
    requires Underway(e, x, roots, stable, starved, script, trace) && !e.s.Done()
    requires |trace| < |script| && step == script[|trace|]
    modifies e, e.s, x
    ensures Underway(e, x, roots, stable, starved', script, trace') && |trace'| == |trace| + 1
  {
    hide *;
    ghost var before := e.Now();
    BeforeTurn(e, x, roots, stable, starved, script, trace);
    ghost var event;
    starved', event := TakeStep(e, x, step, starved);
    ghost var after := e.Now();
    JoinedSane(e, x, starved');
    Resume(e, x, starved');
    ghost var turn := Runs.Turn(before, event, after);
    AfterTurn(e, x, roots, stable, starved', script, trace, turn);
    trace' := trace + [turn];
  }

  /** What holds when the loop is left. */
  lemma Finished<V(!new)>(e: Evaluation, x: LocalExecutor.Executor<V>, roots: seq<nat>, stable: bool,
                          starved: set<nat>, script: seq<Step>, trace: seq<Runs.Turn>)
    requires Underway(e, x, roots, stable, starved, script, trace) && (|trace| < |script| ==> e.s.Done())
    ensures x.Valid()
    ensures e.s.Done() && !e.s.err && stable ==> starved == {} && forall r :: r in roots ==> r in x.buffers
    ensures var ts := GraphOf(x.tasks).nodes.Keys;
            && (stable && Rounds(script, ts, 5 * |ts|) ==> e.s.Done())
            && (stable && OnlyRunning(script) ==> !e.s.err && forall t :: e.submitted[t] <= 1)
            && (stable && OnlyRunning(script) && Rounds(script, ts, |ts|) ==> e.s.Done())
  {
    hide Inv, Accounts, Joined, Ordered, GraphOf, Runs.Ran, Runs.Fresh, Traced, OnlyRunning, Rounds;
    EndJoined(e, x, roots, starved);
    var ts, now := GraphOf(x.tasks).nodes.Keys, e.Now();
    EventsFollow(script, trace, now, stable);
    var events := Events(script, trace);
    if Rounds(script, ts, 5 * |ts|) {
      RoundsStand(script, events, ts, 5 * |ts|);
    }
    if Rounds(script, ts, |ts|) {
      RoundsStand(script, events, ts, |ts|);
    }
    assert |GraphOf(x.tasks).nodes| == |ts|;
    Runs.Laws(GraphOf(x.tasks), roots, stable, trace, now, events);
  }

  /**
   The evaluation loop over the local executor. If nothing but running happens
   and results are not lost, it does not fail and runs no task twice; and one
   round for each task, in which all tasks are run, noticed and returned,
   completes it. In any case, five rounds for each task end it.
   */
  method EvalLocally<V(!new)>(x: LocalExecutor.Executor<V>, roots: seq<nat>, stable: bool, script: seq<Step>)
    returns (ghost starved: set<nat>, done: bool, err: bool, ghost submitted: multiset<nat>)
    requires x.Valid() && x.buffers == map[] && GraphOf(x.tasks).WellFormed()
    requires forall j: nat :: j < |roots| ==> roots[j] < |x.tasks|
    modifies x
    ensures x.Valid()
    ensures done && !err && stable ==> starved == {} && forall r :: r in roots ==> r in x.buffers
    ensures stable && Rounds(script, Probing.Range(|x.tasks|), 5 * |x.tasks|) ==> done
    ensures stable && OnlyRunning(script) ==> !err && forall t :: submitted[t] <= 1
    ensures stable && OnlyRunning(script) && Rounds(script, Probing.Range(|x.tasks|), |x.tasks|) ==>
              done && !err && starved == {} && forall r :: r in roots ==> r in x.buffers
  {
    hide *;
    var e := Begin(x, roots, stable, script);
    starved := {};
    ghost var trace := [];
    var k := 0;
    while k < |script| && !e.s.Done()
      invariant k <= |script| && fresh(e) && fresh(e.s)
      invariant |trace| == k && Underway(e, x, roots, stable, starved, script, trace)
    {
      starved, trace := TakeTurn(e, x, script[k], roots, stable, starved, script, trace);
      k := k + 1;
    }
    done, err, submitted := e.s.Done(), e.s.err, e.submitted;
    Finished(e, x, roots, stable, starved, script, trace);
    TaskSet(x.tasks);
  }

  lemma TaskSet<V>(tasks: seq<Task<V>>)
    ensures GraphOf(tasks).nodes.Keys == Probing.Range(|tasks|)
    ensures |GraphOf(tasks).nodes.Keys| == |tasks|
  {
    Probing.RangeSize(|tasks|);
    assert GraphOf(tasks).nodes.Keys == Probing.Range(|tasks|);
  }
}
