/**
 Whole evaluations: the loop of Eval (exec/eval.go), and what holds of all its
 runs, turn by turn. Progress is a matter of the script: executors must finish
 tasks, and watchers must notice and deliver them.
 */
module Runs {
  import opened TaskGraph
  import opened Waitlist
  import opened Evaluator
  import opened Evaluation

  /** One turn of the loop: the moment before the event, and the moment after it. */
  datatype Turn = Turn(before: Moment, event: Event, after: Moment)

  /** The moment before turn i, or the last one. */
  ghost function At(trace: seq<Turn>, last: Moment, i: nat): Moment {
    if i < |trace| then trace[i].before else last
  }

  ghost predicate Sane(g: Graph, roots: set<Task>, stable: bool, m: Moment) {
    Inv(g, m.s, roots, m.err) && Accounts(m.s, m.l, stable)
  }

  /** Everything queued has been handed out. */
  ghost predicate Resting(m: Moment) {
    !m.err ==> m.s.todo == {}
  }

  /** Handing out what was queued, unless there is nothing, or the evaluation failed. */
  ghost predicate Resumed(m: Moment, m': Moment) {
    if m.err || m.s.todo == {} then m' == m else Launched(m.s, m'.s, m.l, m'.l) && !m'.err
  }

  ghost predicate TurnOk(g: Graph, roots: set<Task>, stable: bool, turn: Turn, next: Moment) {
    && Sane(g, roots, stable, turn.before) && Resting(turn.before) && !turn.before.Over()
    && Sane(g, roots, stable, turn.after) && Took(turn.before, turn.event, turn.after, stable)
    && Resumed(turn.after, next) && Sane(g, roots, stable, next)
  }

  /** The turns follow one another and lead to the last moment. */
  ghost predicate Ran(g: Graph, roots: set<Task>, stable: bool, trace: seq<Turn>, last: Moment) {
    && (forall i: nat :: i < |trace| ==> TurnOk(g, roots, stable, trace[i], At(trace, last, i + 1)))
    && Sane(g, roots, stable, last) && Resting(last)
  }

  /** Nothing has been returned, lost or failed, and what is not waiting to be run was submitted at most once. */
  ghost predicate Fresh(m: Moment) {
    && !m.err && m.l.returned == multiset{}
    && (forall t :: t in m.l.consecutiveLost ==> m.l.consecutiveLost[t] == 0)
    && (forall t :: t in m.s.st ==> !m.s.st[t].Err?)
    && (forall t :: m.l.submitted[t] <= 1)
    && (forall t :: t in m.s.st && m.s.st[t].Live() ==> m.l.submitted[t] == 0)
  }

  lemma RanMore(g: Graph, roots: set<Task>, stable: bool, trace: seq<Turn>, turn: Turn, last: Moment)
    requires Ran(g, roots, stable, trace, turn.before) && TurnOk(g, roots, stable, turn, last) && Resting(last)
    ensures Ran(g, roots, stable, trace + [turn], last)
  {
    hide TurnOk, Sane, Resting;
    var more := trace + [turn];
    forall i: nat | i < |more|
      ensures TurnOk(g, roots, stable, more[i], At(more, last, i + 1))
    {
      if i < |trace| {
        assert At(more, last, i + 1) == At(trace, turn.before, i + 1);
      }
    }
    assert TurnOk(g, roots, stable, more[|trace|], last) by {
      assert more[|trace|] == turn;
    }
    TurnEnds(g, roots, stable, turn, last);
  }

  lemma TurnEnds(g: Graph, roots: set<Task>, stable: bool, turn: Turn, last: Moment)
    requires TurnOk(g, roots, stable, turn, last)
    ensures Sane(g, roots, stable, last)
  {
  }

  /** What the reasoning about turns needs of a moment. */
  ghost predicate Light(m: Moment) {
    && m.l.consecutiveLost.Keys == m.s.st.Keys && m.s.pending <= m.s.st.Keys
    && m.l.waiting !! m.l.donec && m.l.waiting + m.l.donec == m.s.pending && m.s.todo !! m.s.pending
    && (forall t :: t in m.l.donec && t in m.s.st ==> !m.s.st[t].InFlight())
    && (forall t :: t in m.s.st && m.s.st[t].InFlight() ==> t in m.s.pending)
    && (forall t :: t in m.s.pending && t in m.s.st ==> !m.s.st[t].Init?)
    && (forall t :: t in m.s.todo ==> t in m.s.st && m.s.st[t].Live())
    && (forall t :: m.l.returned[t] + (if t in m.s.pending then 1 else 0) == m.l.submitted[t])
  }

  lemma SaneIsLight(g: Graph, roots: set<Task>, stable: bool, m: Moment)
    requires Sane(g, roots, stable, m)
    ensures Light(m) && m.s.st.Keys == g.nodes.Keys
  {
    hide Bounded, g.WellFormed, Budgeted, RootsCovered;
  }

  ghost predicate Stepped(stable: bool, turn: Turn, next: Moment) {
    && Light(turn.before) && Light(turn.after) && Light(next) && !turn.before.err
    && Took(turn.before, turn.event, turn.after, stable) && Resumed(turn.after, next)
  }

  lemma TurnSteps(g: Graph, roots: set<Task>, stable: bool, turn: Turn, next: Moment)
    requires TurnOk(g, roots, stable, turn, next)
    ensures Stepped(stable, turn, next) && turn.before.s.st.Keys == g.nodes.Keys && next.s.st.Keys == g.nodes.Keys
    ensures turn.before.s.pending != {}
  {
    hide Inv, Accounts, Light, Took, Resumed;
    SaneIsLight(g, roots, stable, turn.before);
    SaneIsLight(g, roots, stable, turn.after);
    SaneIsLight(g, roots, stable, next);
  }

  lemma StepAt(g: Graph, roots: set<Task>, stable: bool, trace: seq<Turn>, last: Moment, i: nat)
    requires Ran(g, roots, stable, trace, last) && i < |trace|
    ensures Stepped(stable, trace[i], At(trace, last, i + 1))
    ensures trace[i].before.s.pending != {} && trace[i].before.s.pending <= g.nodes.Keys
    ensures trace[i].before.s.st.Keys == g.nodes.Keys && At(trace, last, i + 1).s.st.Keys == g.nodes.Keys
  {
    hide TurnOk, Stepped, Sane, Resting;
    TurnSteps(g, roots, stable, trace[i], At(trace, last, i + 1));
    LightPending(stable, trace[i], At(trace, last, i + 1));
  }

  lemma LightPending(stable: bool, turn: Turn, next: Moment)
    requires Stepped(stable, turn, next)
    ensures turn.before.s.pending <= turn.before.s.st.Keys
  {
    hide Took, Resumed;
  }

  // What was delivered.

  /** The event delivers a task that has ended, along with changes that may happen. */
  ghost predicate Delivers(turn: Turn, stable: bool) {
    && turn.event.Deliver? && turn.event.task in turn.before.l.donec
    && Allowed(turn.before.s, turn.before.s.pending - {turn.event.task}, turn.event.changes, stable)
  }

  /** The deliveries that were possible. */
  ghost function Deliveries(trace: seq<Turn>, stable: bool): multiset<Task> {
    if trace == [] then multiset{}
    else
      var n := |trace| - 1;
      Deliveries(trace[..n], stable) + if Delivers(trace[n], stable) then multiset{trace[n].event.task} else multiset{}
  }

  lemma ReturnedByTurn(stable: bool, turn: Turn, next: Moment)
    requires Stepped(stable, turn, next)
    ensures next.l.returned == turn.before.l.returned +
            if Delivers(turn, stable) then multiset{turn.event.task} else multiset{}
    ensures next.err <==> Delivers(turn, stable) && turn.event.task in turn.before.s.st &&
                          turn.before.s.st[turn.event.task].Err?
  {
    hide Allowed;
  }

  lemma {:induction false} ReturnedExactly(g: Graph, roots: set<Task>, stable: bool, trace: seq<Turn>, last: Moment,
                                           i: nat)
    requires Ran(g, roots, stable, trace, last) && i <= |trace| && At(trace, last, 0).l.returned == multiset{}
    ensures At(trace, last, i).l.returned == Deliveries(trace[..i], stable)
  {
    hide Ran, Stepped, Delivers;
    if i > 0 {
      ReturnedExactly(g, roots, stable, trace, last, i - 1);
      StepAt(g, roots, stable, trace, last, i - 1);
      ReturnedByTurn(stable, trace[i - 1], At(trace, last, i));
      assert trace[..i][..i - 1] == trace[..i - 1];
    }
  }

  // Progress.

  /** How far a submitted task has come: in the hands of the executor, out of them, and noticed. */
  ghost predicate Stage(m: Moment, t: Task, k: nat) {
    match k
    case 0 => t in m.s.pending
    case 1 => t in m.s.pending && t in m.s.st && !m.s.st[t].InFlight()
    case _ => t in m.l.donec
  }

  /** A submitted task does not fall back, unless it is returned. */
  lemma StageKept(stable: bool, turn: Turn, next: Moment, t: Task, k: nat)
    requires Stepped(stable, turn, next) && Stage(turn.before, t, k)
    ensures Stage(next, t, k) || next.l.returned[t] > turn.before.l.returned[t]
  {
    hide Allowed, Resumed;
    StageTaken(stable, turn, next, t, k);
    if Stage(turn.after, t, k) {
      StageResumed(turn.after, next, t, k);
    }
    SameReturned(turn.after, next);
  }

  lemma SameReturned(m: Moment, next: Moment)
    requires Resumed(m, next)
    ensures next.l.returned == m.l.returned
  {
  }

  lemma StageResumed(m: Moment, next: Moment, t: Task, k: nat)
    requires Light(m) && Resumed(m, next) && Stage(m, t, k)
    ensures Stage(next, t, k)
  {
  }

  lemma StageTaken(stable: bool, turn: Turn, next: Moment, t: Task, k: nat)
    requires Stepped(stable, turn, next) && Stage(turn.before, t, k)
    ensures Stage(turn.after, t, k) || turn.after.l.returned[t] > turn.before.l.returned[t]
  {
    hide Resumed;
    var m := turn.before;
    match turn.event {
      case Move(changes) =>
        if Allowed(m.s, m.s.pending, changes, stable) {
          assert Moves(t in m.s.pending, m.s.st[t], turn.after.s.st[t]);
        }
      case Settle(u) =>
      case Deliver(u, changes) =>
        if u != t && u in m.l.donec && Allowed(m.s, m.s.pending - {u}, changes, stable) && !turn.after.err {
          assert Moves(t in m.s.pending - {u}, m.s.st[t], turn.after.s.st[t]);
        }
    }
  }

  /** A task that is moved out of the executor's hands is out of them. */
  lemma MovedOut(stable: bool, turn: Turn, next: Moment, t: Task, to: TaskState)
    requires Stepped(stable, turn, next) && Stage(turn.before, t, 0)
    requires turn.event == Move(map[t := to]) && (to.Ok? || to.Err? || to.Lost?)
    ensures Stage(next, t, 1)
  {
    hide Resumed;
    var m := turn.before;
    if m.s.st[t].InFlight() {
      var later := Overlay(m.s.st, map[t := to]);
      assert forall u :: u in m.s.st && u != t ==> later[u] == m.s.st[u];
      assert Allowed(m.s, m.s.pending, map[t := to], stable);
    } else {
      StageTaken(stable, turn, next, t, 1);
    }
    StageResumed(turn.after, next, t, 1);
  }

  /** A task that is noticed after it left the executor is on its way back. */
  lemma SettledOut(stable: bool, turn: Turn, next: Moment, t: Task)
    requires Stepped(stable, turn, next) && Stage(turn.before, t, 1) && turn.event == Settle(t)
    ensures Stage(next, t, 2)
  {
    hide Resumed;
    StageResumed(turn.after, next, t, 2);
  }

  /** A task on its way back is returned by its delivery. */
  lemma DeliveredOut(stable: bool, turn: Turn, next: Moment, t: Task)
    requires Stepped(stable, turn, next) && Stage(turn.before, t, 2) && turn.event == Deliver(t, map[])
    ensures next.l.returned[t] > turn.before.l.returned[t]
  {
    hide Resumed;
    var st := turn.before.s.st;
    assert Overlay(st, map[]) == st;
    StandStill(st, turn.before.s.pending - {t});
    SameReturned(turn.after, next);
  }

  /** Returns are not taken back. */
  lemma {:induction false} ReturnedGrows(g: Graph, roots: set<Task>, stable: bool, trace: seq<Turn>, last: Moment,
                                         a: nat, b: nat)
    requires Ran(g, roots, stable, trace, last) && a <= b <= |trace|
    ensures At(trace, last, a).l.returned <= At(trace, last, b).l.returned
    decreases b
  {
    hide Ran, Stepped;
    if a < b {
      ReturnedGrows(g, roots, stable, trace, last, a, b - 1);
      StepAt(g, roots, stable, trace, last, b - 1);
      ReturnedByTurn(stable, trace[b - 1], At(trace, last, b));
    }
  }

  lemma {:induction false} StageLasts(g: Graph, roots: set<Task>, stable: bool, trace: seq<Turn>, last: Moment,
                                      a: nat, b: nat, t: Task, k: nat)
    requires Ran(g, roots, stable, trace, last) && a <= b <= |trace| && Stage(At(trace, last, a), t, k)
    ensures Stage(At(trace, last, b), t, k) || At(trace, last, b).l.returned[t] > At(trace, last, a).l.returned[t]
    decreases b
  {
    hide Ran, Stepped, Stage;
    if a < b {
      StageLasts(g, roots, stable, trace, last, a, b - 1, t, k);
      StepAt(g, roots, stable, trace, last, b - 1);
      ReturnedGrows(g, roots, stable, trace, last, b - 1, b);
      if Stage(At(trace, last, b - 1), t, k) {
        ReturnedGrows(g, roots, stable, trace, last, a, b - 1);
        StageKept(stable, trace[b - 1], At(trace, last, b), t, k);
      }
    }
  }

  /** The events take task t out of the executor's hands, notice that, and deliver it, with others in between. */
  ghost predicate Serves(events: seq<Event>, t: Task) {
    exists i: nat, j: nat, k: nat, to :: ServesAt(events, t, i, j, k, to)
  }

  ghost predicate ServesAt(events: seq<Event>, t: Task, i: nat, j: nat, k: nat, to: TaskState) {
    && i < j < k < |events| && events[i] == Move(map[t := to]) && (to.Ok? || to.Err? || to.Lost?)
    && events[j] == Settle(t) && events[k] == Deliver(t, map[])
  }

  /** The events serve each of the tasks. */
  ghost predicate ServesAll(events: seq<Event>, ts: set<Task>) {
    forall t :: t in ts ==> Serves(events, t)
  }

  /** The script starts with n rounds, one after the other, and each of them serves all tasks. */
  ghost predicate Rounds(script: seq<Event>, ts: set<Task>, n: nat) {
    n == 0 || exists k: nat :: k <= |script| && ServesAll(script[..k], ts) && Rounds(script[k..], ts, n - 1)
  }

  /** The turns are those of a script, and stop early only when the evaluation is over. */
  ghost predicate Follows(trace: seq<Turn>, last: Moment, script: seq<Event>) {
    && |trace| <= |script| && (|trace| < |script| ==> last.Over())
    && forall i: nat :: i < |trace| ==> trace[i].event == script[i]
  }

  ghost function TimesReturned(trace: seq<Turn>, last: Moment, i: nat, t: Task): nat {
    At(trace, last, i).l.returned[t]
  }

  lemma TimesGrow(g: Graph, roots: set<Task>, stable: bool, trace: seq<Turn>, last: Moment, a: nat, b: nat, t: Task)
    requires Ran(g, roots, stable, trace, last) && a <= b <= |trace|
    ensures TimesReturned(trace, last, a, t) <= TimesReturned(trace, last, b, t)
  {
    hide Ran;
    ReturnedGrows(g, roots, stable, trace, last, a, b);
  }

  /** The task was returned in the meantime. */
  ghost predicate Again(trace: seq<Turn>, last: Moment, a: nat, b: nat, t: Task) {
    TimesReturned(trace, last, b, t) > TimesReturned(trace, last, a, t)
  }

  lemma ComesOut(g: Graph, roots: set<Task>, stable: bool, trace: seq<Turn>, last: Moment, a: nat, b: nat, t: Task,
                 to: TaskState)
    requires a < b <= |trace| && trace[b - 1].event == Move(map[t := to]) && (to.Ok? || to.Err? || to.Lost?)
    requires Stage(At(trace, last, a), t, 0) && Ran(g, roots, stable, trace, last)
    ensures Stage(At(trace, last, b), t, 1) || Again(trace, last, a, b, t)
  {
    hide Ran, Stepped, Stage;
    StageLasts(g, roots, stable, trace, last, a, b - 1, t, 0);
    TimesGrow(g, roots, stable, trace, last, a, b - 1, t);
    TimesGrow(g, roots, stable, trace, last, b - 1, b, t);
    if Stage(At(trace, last, b - 1), t, 0) {
      StepAt(g, roots, stable, trace, last, b - 1);
      MovedOut(stable, trace[b - 1], At(trace, last, b), t, to);
    }
  }

  lemma IsNoticed(g: Graph, roots: set<Task>, stable: bool, trace: seq<Turn>, last: Moment, a: nat, b: nat, t: Task)
    requires a < b <= |trace| && trace[b - 1].event == Settle(t)
    requires Stage(At(trace, last, a), t, 1) && Ran(g, roots, stable, trace, last)
    ensures Stage(At(trace, last, b), t, 2) || Again(trace, last, a, b, t)
  {
    hide Ran, Stepped, Stage;
    StageLasts(g, roots, stable, trace, last, a, b - 1, t, 1);
    TimesGrow(g, roots, stable, trace, last, a, b - 1, t);
    TimesGrow(g, roots, stable, trace, last, b - 1, b, t);
    if Stage(At(trace, last, b - 1), t, 1) {
      StepAt(g, roots, stable, trace, last, b - 1);
      SettledOut(stable, trace[b - 1], At(trace, last, b), t);
    }
  }

  lemma ComesBack(g: Graph, roots: set<Task>, stable: bool, trace: seq<Turn>, last: Moment, a: nat, b: nat, t: Task)
    requires a < b <= |trace| && trace[b - 1].event == Deliver(t, map[])
    requires Stage(At(trace, last, a), t, 2) && Ran(g, roots, stable, trace, last)
    ensures Again(trace, last, a, b, t)
  {
    hide Ran, Stepped, Stage;
    StageLasts(g, roots, stable, trace, last, a, b - 1, t, 2);
    TimesGrow(g, roots, stable, trace, last, a, b - 1, t);
    TimesGrow(g, roots, stable, trace, last, b - 1, b, t);
    if Stage(At(trace, last, b - 1), t, 2) {
      StepAt(g, roots, stable, trace, last, b - 1);
      DeliveredOut(stable, trace[b - 1], At(trace, last, b), t);
    }
  }

  /** A task that is pending before some events that serve it is returned by them. */
  lemma ServedReturns(g: Graph, roots: set<Task>, stable: bool, trace: seq<Turn>, last: Moment, a: nat, b: nat, t: Task,
                      events: seq<Event>)
    requires a <= b <= |trace| && |events| == b - a && forall i: nat :: i < b - a ==> trace[a + i].event == events[i]
    requires Serves(events, t) && Stage(At(trace, last, a), t, 0) && Ran(g, roots, stable, trace, last)
    ensures Again(trace, last, a, b, t)
  {
    hide Ran, Stage, At;
    var x: nat, y: nat, z: nat, to :| ServesAt(events, t, x, y, z, to);
    assert trace[a + x].event == events[x] && trace[a + y].event == events[y] && trace[a + z].event == events[z];
    ServedAt(g, roots, stable, trace, last, a, b, t, a + x + 1, a + y + 1, a + z + 1, to);
  }

  lemma ServedAt(g: Graph, roots: set<Task>, stable: bool, trace: seq<Turn>, last: Moment, a: nat, b: nat, t: Task,
                 i: nat, j: nat, k: nat, to: TaskState)
    requires a < i < j < k <= b <= |trace| && trace[i - 1].event == Move(map[t := to])
    requires (to.Ok? || to.Err? || to.Lost?) && trace[j - 1].event == Settle(t)
    requires trace[k - 1].event == Deliver(t, map[])
    requires Stage(At(trace, last, a), t, 0) && Ran(g, roots, stable, trace, last)
    ensures Again(trace, last, a, b, t)
  {
    hide Ran, Stage, TimesReturned, At;
    TimesGrow(g, roots, stable, trace, last, a, i, t);
    TimesGrow(g, roots, stable, trace, last, i, j, t);
    TimesGrow(g, roots, stable, trace, last, j, k, t);
    TimesGrow(g, roots, stable, trace, last, k, b, t);
    ComesOut(g, roots, stable, trace, last, a, i, t, to);
    if Stage(At(trace, last, i), t, 1) {
      IsNoticed(g, roots, stable, trace, last, i, j, t);
      if Stage(At(trace, last, j), t, 2) {
        ComesBack(g, roots, stable, trace, last, j, k, t);
      }
    }
  }

  lemma MoreReturned(m: multiset<Task>, m': multiset<Task>, t: Task)
    requires m <= m' && m[t] < m'[t]
    ensures |m| < |m'|
  {
    assert m' == m + (m' - m) && (m' - m)[t] > 0;
    assert |m'| == |m| + |m' - m|;
  }

  /** A round that an unfinished evaluation goes through returns some task. */
  lemma RoundReturns(g: Graph, roots: set<Task>, stable: bool, trace: seq<Turn>, last: Moment, a: nat, b: nat,
                     events: seq<Event>)
    requires Ran(g, roots, stable, trace, last) && a <= b <= |trace| && a < |trace|
    requires |events| == b - a && forall i: nat :: i < b - a ==> trace[a + i].event == events[i]
    requires ServesAll(events, g.nodes.Keys)
    ensures |At(trace, last, b).l.returned| > |At(trace, last, a).l.returned|
  {
    hide Ran, Stepped, Serves;
    StepAt(g, roots, stable, trace, last, a);
    var t :| t in trace[a].before.s.pending;
    ServedReturns(g, roots, stable, trace, last, a, b, t, events);
    ReturnedGrows(g, roots, stable, trace, last, a, b);
    MoreReturned(At(trace, last, a).l.returned, At(trace, last, b).l.returned, t);
  }

  /** After n rounds there are n more returns, unless the evaluation is over. */
  lemma {:induction false} RoundsReturn(g: Graph, roots: set<Task>, stable: bool, trace: seq<Turn>, last: Moment,
                                        script: seq<Event>, a: nat, n: nat)
    requires Ran(g, roots, stable, trace, last) && Follows(trace, last, script) && a <= |trace|
    requires Rounds(script[a..], g.nodes.Keys, n)
    ensures last.Over() || |last.l.returned| >= |At(trace, last, a).l.returned| + n
    decreases n
  {
    hide Ran, ServesAll;
    if n == 0 {
      ReturnedGrows(g, roots, stable, trace, last, a, |trace|);
      FewerReturned(At(trace, last, a).l.returned, last.l.returned);
    } else {
      var k: nat :| k <= |script[a..]| && ServesAll(script[a..][..k], g.nodes.Keys) &&
                    Rounds(script[a..][k..], g.nodes.Keys, n - 1);
      if a + k <= |trace| && a < |trace| {
        RoundReturns(g, roots, stable, trace, last, a, a + k, script[a..][..k]);
        assert script[a..][k..] == script[a + k..];
        RoundsReturn(g, roots, stable, trace, last, script, a + k, n - 1);
      } else if a + k <= |trace| {
        NoRound(g, roots, stable, trace, last, script[a..][..k]);
      }
    }
  }

  lemma FewerReturned(m: multiset<Task>, m': multiset<Task>)
    requires m <= m'
    ensures |m| <= |m'|
  {
    assert m' == m + (m' - m);
  }

  /** An empty round serves nobody, so there is nobody to be served. */
  lemma NoRound(g: Graph, roots: set<Task>, stable: bool, trace: seq<Turn>, last: Moment, events: seq<Event>)
    requires Ran(g, roots, stable, trace, last) && events == [] && ServesAll(events, g.nodes.Keys)
    ensures last.Over()
  {
    hide TurnOk, Bounded, g.WellFormed, Budgeted, RootsCovered;
    assert forall t :: t in last.s.pending ==> t in g.nodes.Keys && !Serves(events, t);
  }

  // Losses and failures.

  /** The event notices that task t has left the executor. */
  ghost predicate Notices(turn: Turn, t: Task) {
    && turn.event == Settle(t) && t in turn.before.l.waiting && t in turn.before.s.st
    && !turn.before.s.st[t].InFlight()
  }

  /** How the runs of a task ended, as far as they were noticed. */
  ghost function Endings(trace: seq<Turn>, t: Task): seq<TaskState> {
    if trace == [] then []
    else
      var n := |trace| - 1;
      Endings(trace[..n], t) + if Notices(trace[n], t) then [trace[n].before.s.st[t]] else []
  }

  /** Five losses in a row. */
  ghost predicate LostFiveTimes(endings: seq<TaskState>) {
    exists k: nat :: LostFrom(endings, k)
  }

  ghost predicate LostFrom(endings: seq<TaskState>, k: nat) {
    k + 5 <= |endings| && AllLost(endings[k..k + 5])
  }

  ghost predicate AllLost(endings: seq<TaskState>) {
    forall i :: 0 <= i < |endings| ==> endings[i].Lost?
  }

  /** How often the task was lost since it last ended otherwise. */
  ghost function InARow(endings: seq<TaskState>): nat {
    var n := |endings| - 1;
    if endings == [] || !endings[n].Lost? then 0 else InARow(endings[..n]) + 1
  }

  lemma {:induction false} InARowLost(endings: seq<TaskState>, k: nat)
    requires k <= |endings|
    ensures InARow(endings) >= k <==> AllLost(endings[|endings| - k..])
  {
    if k > 0 {
      var n := |endings| - 1;
      assert endings[n] == endings[|endings| - k..][k - 1];
      if endings[n].Lost? {
        InARowLost(endings[..n], k - 1);
        assert endings[|endings| - k..] == endings[..n][n - (k - 1)..] + [endings[n]];
      }
    }
  }

  lemma InARowBound(endings: seq<TaskState>)
    ensures InARow(endings) <= |endings|
  {
  }

  /** One more ending makes five losses in a row exactly if there were some before, or the last five are losses. */
  lemma FiveMore(endings: seq<TaskState>, x: TaskState)
    ensures LostFiveTimes(endings + [x]) <==> LostFiveTimes(endings) || InARow(endings + [x]) >= 5
  {
    var more := endings + [x];
    InARowBound(more);
    if |more| >= 5 {
      InARowLost(more, 5);
      assert more[|more| - 5..] == more[|more| - 5..|more| - 5 + 5];
      assert InARow(more) >= 5 <==> LostFrom(more, |more| - 5);
    }
    forall k: nat | k + 5 <= |endings|
      ensures LostFrom(more, k) <==> LostFrom(endings, k)
    {
      assert more[k..k + 5] == endings[k..k + 5];
    }
    if LostFiveTimes(endings) {
      var k: nat :| LostFrom(endings, k);
      assert LostFrom(more, k);
    }
    if LostFiveTimes(more) {
      var k: nat :| LostFrom(more, k);
      assert k + 5 <= |endings| || k == |more| - 5;
    }
  }

  lemma InARowNext(endings: seq<TaskState>, x: TaskState)
    ensures InARow(endings + [x]) == if x.Lost? then InARow(endings) + 1 else 0
  {
    assert (endings + [x])[..|endings|] == endings;
  }

  /** No change makes a task fail. */
  ghost predicate NoFailures(events: seq<Event>) {
    forall i: nat :: i < |events| ==>
      events[i].Settle? || forall t :: t in events[i].changes ==> !events[i].changes[t].Err?
  }

  /**
   What the loss counter is for: a task fails by its fifth loss in a row, and
   otherwise only if an executor says so.
   */
  ghost predicate Tracks(m: Moment, t: Task, endings: seq<TaskState>, unfailed: bool) {
    t in m.s.st && t in m.l.consecutiveLost ==>
      && (LostFiveTimes(endings) ==> m.s.st[t].Err?)
      && (unfailed && m.s.st[t].Err? ==> LostFiveTimes(endings))
      && (!m.s.st[t].Err? ==> m.l.consecutiveLost[t] == InARow(endings))
  }

  lemma TracksTurn(stable: bool, turn: Turn, next: Moment, t: Task, endings: seq<TaskState>, unfailed: bool)
    requires Stepped(stable, turn, next) && Tracks(turn.before, t, endings, unfailed)
    requires unfailed ==> NoFailures([turn.event])
    ensures Tracks(next, t, endings + (if Notices(turn, t) then [turn.before.s.st[t]] else []), unfailed)
  {
    hide Resumed, LostFiveTimes, InARow;
    if Notices(turn, t) {
      var x := turn.before.s.st[t];
      FiveMore(endings, x);
      InARowNext(endings, x);
      TracksNotice(stable, turn, next, t, endings, unfailed);
    } else {
      TracksTaken(stable, turn, next, t, endings, unfailed);
      assert endings + [] == endings;
    }
    TracksResumed(turn.after, next, t, endings + (if Notices(turn, t) then [turn.before.s.st[t]] else []), unfailed);
  }

  lemma TracksResumed(m: Moment, next: Moment, t: Task, endings: seq<TaskState>, unfailed: bool)
    requires Light(m) && Resumed(m, next) && Tracks(m, t, endings, unfailed)
    ensures Tracks(next, t, endings, unfailed)
  {
    hide LostFiveTimes, InARow;
  }

  lemma TracksNotice(stable: bool, turn: Turn, next: Moment, t: Task, endings: seq<TaskState>, unfailed: bool)
    requires Stepped(stable, turn, next) && Tracks(turn.before, t, endings, unfailed) && Notices(turn, t)
    requires var x := turn.before.s.st[t];
             && (LostFiveTimes(endings + [x]) <==> LostFiveTimes(endings) || InARow(endings + [x]) >= 5)
             && InARow(endings + [x]) == if x.Lost? then InARow(endings) + 1 else 0
    ensures Tracks(turn.after, t, endings + [turn.before.s.st[t]], unfailed)
  {
    hide Resumed, LostFiveTimes, InARow;
  }

  lemma TracksTaken(stable: bool, turn: Turn, next: Moment, t: Task, endings: seq<TaskState>, unfailed: bool)
    requires Stepped(stable, turn, next) && Tracks(turn.before, t, endings, unfailed) && !Notices(turn, t)
    requires unfailed ==> NoFailures([turn.event])
    ensures Tracks(turn.after, t, endings, unfailed)
  {
    hide Resumed, LostFiveTimes, InARow;
    var m := turn.before;
    if unfailed {
      assert [turn.event][0] == turn.event;
    }
    match turn.event {
      case Move(changes) =>
        if Allowed(m.s, m.s.pending, changes, stable) && t in m.s.st {
          assert Moves(t in m.s.pending, m.s.st[t], turn.after.s.st[t]);
        }
      case Settle(u) =>
      case Deliver(u, changes) =>
        if Allowed(m.s, m.s.pending - {u}, changes, stable) && t in m.s.st && u in m.l.donec && !turn.after.err {
          assert Moves(t in m.s.pending - {u}, m.s.st[t], turn.after.s.st[t]);
        }
    }
  }

  lemma {:induction false} TracksAll(g: Graph, roots: set<Task>, stable: bool, trace: seq<Turn>, last: Moment, i: nat,
                                     t: Task, script: seq<Event>)
    requires Ran(g, roots, stable, trace, last) && Fresh(At(trace, last, 0)) && i <= |trace|
    requires Follows(trace, last, script)
    ensures Tracks(At(trace, last, i), t, Endings(trace[..i], t), NoFailures(script))
  {
    hide Ran, Stepped, Notices, Tracks, NoFailures;
    if i == 0 {
      TracksFresh(At(trace, last, 0), t, NoFailures(script));
    } else {
      TracksAll(g, roots, stable, trace, last, i - 1, t, script);
      StepAt(g, roots, stable, trace, last, i - 1);
      OneOf(script, i - 1);
      assert trace[..i][..i - 1] == trace[..i - 1];
      TracksTurn(stable, trace[i - 1], At(trace, last, i), t, Endings(trace[..i - 1], t), NoFailures(script));
    }
  }

  lemma OneOf(script: seq<Event>, i: nat)
    requires i < |script|
    ensures NoFailures(script) ==> NoFailures([script[i]])
  {
  }

  lemma TracksFresh(m: Moment, t: Task, unfailed: bool)
    requires Fresh(m)
    ensures Tracks(m, t, [], unfailed)
  {
  }

  /** Some delivery was that of a failed task. */
  ghost predicate DeliversFailed(trace: seq<Turn>, stable: bool) {
    exists i: nat :: i < |trace| && DeliversErr(trace[i], stable)
  }

  ghost predicate DeliversErr(turn: Turn, stable: bool) {
    Delivers(turn, stable) && turn.event.task in turn.before.s.st && turn.before.s.st[turn.event.task].Err?
  }

  /** An evaluation fails exactly by the delivery of a failed task. */
  lemma FailsExactly(g: Graph, roots: set<Task>, stable: bool, trace: seq<Turn>, last: Moment)
    requires Ran(g, roots, stable, trace, last) && !At(trace, last, 0).err
    ensures last.err <==> DeliversFailed(trace, stable)
  {
    hide Ran, Stepped, Delivers;
    forall i: nat | i < |trace|
      ensures At(trace, last, i + 1).err <==> DeliversErr(trace[i], stable)
      ensures !trace[i].before.err
    {
      StepAt(g, roots, stable, trace, last, i);
      ReturnedByTurn(stable, trace[i], At(trace, last, i + 1));
      StillFine(stable, trace[i], At(trace, last, i + 1));
    }
    if last.err {
      assert DeliversErr(trace[|trace| - 1], stable);
    }
    forall i: nat | i < |trace| && DeliversErr(trace[i], stable)
      ensures last.err
    {
      assert i + 1 < |trace| ==> !trace[i + 1].before.err;
    }
  }

  lemma StillFine(stable: bool, turn: Turn, next: Moment)
    requires Stepped(stable, turn, next)
    ensures !turn.before.err
  {
  }

  // Runs without losses.

  /** Tasks only ever start and complete. */
  ghost predicate Smooth(events: seq<Event>) {
    forall i: nat :: i < |events| ==>
      || events[i].Settle?
      || forall t :: t in events[i].changes ==> events[i].changes[t].Running? || events[i].changes[t].Ok?
  }

  /** No task has failed, and each was submitted once at most. */
  ghost predicate Calm(m: Moment) {
    && !m.err && (forall t :: m.l.submitted[t] <= 1)
    && forall t :: t in m.s.st ==> !m.s.st[t].Err? && (m.s.st[t].Live() ==> m.l.submitted[t] == 0)
  }

  lemma CalmTurn(stable: bool, turn: Turn, next: Moment)
    requires Stepped(stable, turn, next) && Calm(turn.before) && Smooth([turn.event])
    ensures Calm(next)
  {
    hide Resumed;
    assert [turn.event][0] == turn.event;
    forall t | t in turn.after.s.st
      ensures !turn.after.s.st[t].Err? && (turn.after.s.st[t].Live() ==> turn.after.l.submitted[t] == 0)
    {
      CalmTask(stable, turn, next, t);
    }
    CalmResumed(turn.after, next);
  }

  lemma CalmTask(stable: bool, turn: Turn, next: Moment, t: Task)
    requires Stepped(stable, turn, next) && Calm(turn.before) && Smooth([turn.event]) && t in turn.after.s.st
    ensures !turn.after.s.st[t].Err? && (turn.after.s.st[t].Live() ==> turn.after.l.submitted[t] == 0)
  {
    hide Resumed, Allowed;
    assert [turn.event][0] == turn.event;
    match turn.event {
      case Move(changes) =>
      case Settle(u) =>
        assert u in turn.before.l.waiting ==> turn.before.l.submitted[u] >= 1;
      case Deliver(u, changes) =>
    }
  }

  lemma CalmResumed(m: Moment, next: Moment)
    requires Light(m) && Resumed(m, next) && Calm(m)
    ensures Calm(next)
  {
    if !m.err && m.s.todo != {} {
      forall t
        ensures next.l.submitted[t] <= 1
      {
        assert t in m.s.todo ==> m.s.st[t].Live();
      }
    }
  }

  lemma {:induction false} CalmAll(g: Graph, roots: set<Task>, stable: bool, trace: seq<Turn>, last: Moment, i: nat,
                                   script: seq<Event>)
    requires Ran(g, roots, stable, trace, last) && Fresh(At(trace, last, 0)) && i <= |trace|
    requires Follows(trace, last, script) && Smooth(script)
    ensures Calm(At(trace, last, i))
  {
    hide Ran, Stepped;
    if i > 0 {
      CalmAll(g, roots, stable, trace, last, i - 1, script);
      StepAt(g, roots, stable, trace, last, i - 1);
      CalmTurn(stable, trace[i - 1], At(trace, last, i));
    }
  }

  /** When each task has been returned once, and none needed more, the evaluation is over. */
  lemma CalmEnd(g: Graph, roots: set<Task>, stable: bool, last: Moment)
    requires Sane(g, roots, stable, last) && Resting(last) && Calm(last) && |last.l.returned| >= |g.nodes|
    ensures last.Over()
  {
    hide Inv, Accounts;
    SaneIsLight(g, roots, stable, last);
    ReturnedKnown(g, roots, stable, last);
    assert |g.nodes.Keys| == |g.nodes|;
    MultisetBound(last.l.returned, g.nodes.Keys, 1);
    MultisetFull(last.l.returned, g.nodes.Keys, 1);
    assert forall t :: t in last.s.pending ==> t in g.nodes.Keys;
  }

  lemma ReturnedKnown(g: Graph, roots: set<Task>, stable: bool, m: Moment)
    requires Sane(g, roots, stable, m)
    ensures forall t :: t in m.l.returned ==> t in g.nodes.Keys
  {
    hide Bounded, g.WellFormed, Budgeted, RootsCovered;
    forall t | t in m.l.returned
      ensures t in g.nodes.Keys
    {
      assert t in m.l.submitted;
    }
  }

  /** A script of enough rounds is enough, however tasks get lost, if results are not. */
  lemma RoundsSuffice(g: Graph, roots: seq<Task>, stable: bool, trace: seq<Turn>, last: Moment, script: seq<Event>)
    requires Ran(g, Elems(roots), stable, trace, last) && Follows(trace, last, script) && stable
    requires Rounds(script, g.nodes.Keys, 5 * |g.nodes|)
    ensures last.Over()
  {
    hide Rounds, Inv, Accounts, TurnOk;
    assert script[0..] == script;
    RoundsReturn(g, Elems(roots), stable, trace, last, script, 0, 5 * |g.nodes|);
    Conclude(g, last.s, last.l, roots, last.err, stable);
  }

  /** Without losses and failures, one round for each task is enough. */
  lemma SmoothRoundsSuffice(g: Graph, roots: set<Task>, stable: bool, trace: seq<Turn>, last: Moment,
                            script: seq<Event>)
    requires Ran(g, roots, stable, trace, last) && Follows(trace, last, script) && Fresh(At(trace, last, 0))
    requires Smooth(script) && Rounds(script, g.nodes.Keys, |g.nodes|)
    ensures last.Over()
  {
    hide Rounds, TurnOk, Sane, Resting, Calm, Smooth;
    assert script[0..] == script;
    RoundsReturn(g, roots, stable, trace, last, script, 0, |g.nodes|);
    CalmAll(g, roots, stable, trace, last, |trace|, script);
    if !last.Over() {
      CalmEnd(g, roots, stable, last);
    }
  }

  // The loop.

  lemma FirstDispatch(m: Moment, next: Moment)
    requires Fresh(m) && m.l.submitted == multiset{} && m.s.pending == {} && Light(m) && Resumed(m, next)
    ensures Fresh(next)
  {
  }

  lemma StartsFresh(m: Moment)
    requires !m.err && m.l.returned == multiset{} && m.l.submitted == multiset{}
    requires forall t :: t in m.l.consecutiveLost ==> m.l.consecutiveLost[t] == 0
    requires forall t :: t in m.s.st ==> m.s.st[t].Live() || m.s.st[t].Ok?
    ensures Fresh(m)
  {
  }

  lemma NowResting(m: Moment, next: Moment)
    requires Resumed(m, next)
    ensures Resting(next)
  {
  }

  lemma MakeTurn(g: Graph, roots: set<Task>, stable: bool, trace: seq<Turn>, turn: Turn, last: Moment)
    requires Ran(g, roots, stable, trace, turn.before) && !turn.before.Over() && Sane(g, roots, stable, turn.after)
    requires Took(turn.before, turn.event, turn.after, stable) && Resumed(turn.after, last)
    requires Sane(g, roots, stable, last)
    ensures Ran(g, roots, stable, trace + [turn], last)
  {
    hide Sane, Took, Resumed, Resting;
    NowResting(turn.after, last);
    RanMore(g, roots, stable, trace, turn, last);
  }

  /** Hands out what is queued, if there is anything. */
  method Resume(e: Evaluation)
    requires e.Valid()
    modifies e, e.s
    ensures e.Valid() && Resumed(old(e.Now()), e.Now())
  {
    hide Inv, Accounts, Launched;
    if !e.s.err && e.s.Todo() {
      e.Dispatch();
    }
  }

  lemma {:induction false} EndingsGrow(trace: seq<Turn>, i: nat, t: Task)
    requires i <= |trace|
    ensures Endings(trace[..i], t) <= Endings(trace, t)
  {
    hide Notices;
    if i < |trace| {
      var n := |trace| - 1;
      EndingsGrow(trace[..n], i, t);
      assert trace[..n][..i] == trace[..i];
    } else {
      assert trace[..i] == trace;
    }
  }

  lemma LostFiveGrows(a: seq<TaskState>, b: seq<TaskState>)
    requires a <= b && LostFiveTimes(a)
    ensures LostFiveTimes(b)
  {
    var k: nat :| LostFrom(a, k);
    assert b[k..k + 5] == a[k..k + 5];
    assert LostFrom(b, k);
  }

  /** A failed task that was delivered had been made to fail, or was lost five times in a row. */
  lemma FailureExplained(g: Graph, roots: set<Task>, stable: bool, trace: seq<Turn>, last: Moment, script: seq<Event>)
    requires Ran(g, roots, stable, trace, last) && Follows(trace, last, script) && Fresh(At(trace, last, 0))
    requires last.err && NoFailures(script)
    ensures exists t :: LostFiveTimes(Endings(trace, t))
  {
    hide Ran, LostFiveTimes, Endings, Allowed, NoFailures, Stepped;
    FailsExactly(g, roots, stable, trace, last);
    var i: nat :| i < |trace| && DeliversErr(trace[i], stable);
    var t := trace[i].event.task;
    TracksAll(g, roots, stable, trace, last, i, t, script);
    StepAt(g, roots, stable, trace, last, i);
    InBooks(stable, trace[i], At(trace, last, i + 1));
    EndingsGrow(trace, i, t);
    LostFiveGrows(Endings(trace[..i], t), Endings(trace, t));
  }

  lemma InBooks(stable: bool, turn: Turn, next: Moment)
    requires Stepped(stable, turn, next)
    ensures turn.before.l.consecutiveLost.Keys == turn.before.s.st.Keys
  {
    hide Took, Resumed;
  }

  /** The event delivers a task that was lost five times in a row. */
  ghost predicate DeliversGivenUp(trace: seq<Turn>, i: nat, stable: bool)
    requires i < |trace|
  {
    Delivers(trace[i], stable) && LostFiveTimes(Endings(trace[..i], trace[i].event.task))
  }

  /** A task that was lost five times in a row makes the evaluation fail when it is delivered. */
  lemma FifthLossFails(g: Graph, roots: set<Task>, stable: bool, trace: seq<Turn>, last: Moment, script: seq<Event>,
                       i: nat)
    requires Ran(g, roots, stable, trace, last) && Follows(trace, last, script) && Fresh(At(trace, last, 0))
    requires i < |trace| && DeliversGivenUp(trace, i, stable)
    ensures last.err
  {
    hide Ran, LostFiveTimes, Endings, NoFailures, Allowed, Stepped;
    FailsExactly(g, roots, stable, trace, last);
    var t := trace[i].event.task;
    TracksAll(g, roots, stable, trace, last, i, t, script);
    StepAt(g, roots, stable, trace, last, i);
    InBooks(stable, trace[i], At(trace, last, i + 1));
    DonecKnown(stable, trace[i], At(trace, last, i + 1));
    assert DeliversErr(trace[i], stable);
  }

  lemma DonecKnown(stable: bool, turn: Turn, next: Moment)
    requires Stepped(stable, turn, next)
    ensures turn.before.l.donec <= turn.before.s.st.Keys
  {
    hide Took, Resumed;
  }

  /** An evaluation that has gone through some turns. */
  ghost predicate Going(e: Evaluation, g: Graph, roots: seq<Task>, stable: bool, trace: seq<Turn>)
    reads e, e.s
  {
    && e.s.g == g && e.roots == Elems(roots) && e.stable == stable && e.Valid()
    && Ran(g, e.roots, stable, trace, e.Now()) && Fresh(At(trace, e.Now(), 0))
  }

  lemma RanNothing(g: Graph, roots: set<Task>, stable: bool, m: Moment, next: Moment)
    requires Sane(g, roots, stable, m) && Sane(g, roots, stable, next) && Resumed(m, next) && !m.err
    requires m.l.returned == multiset{} && m.l.submitted == multiset{} && m.s.pending == {}
    requires forall t :: t in m.l.consecutiveLost ==> m.l.consecutiveLost[t] == 0
    requires forall t :: t in m.s.st ==> m.s.st[t].Live() || m.s.st[t].Ok?
    ensures Ran(g, roots, stable, [], next) && Fresh(At([], next, 0))
  {
    hide Inv, Accounts, Resumed, Light;
    StartsFresh(m);
    SaneIsLight(g, roots, stable, m);
    FirstDispatch(m, next);
    NowResting(m, next);
  }

  /** Enqueues the roots and hands out what is ready. */
  method Begin(g: Graph, st: map<Task, TaskState>, roots: seq<Task>, stable: bool) returns (e: Evaluation)
    requires g.WellFormed() && st.Keys == g.nodes.Keys && (forall r :: r in roots ==> r in g.nodes)
    requires forall t :: t in st ==> st[t].Live() || st[t].Ok?
    ensures fresh(e) && fresh(e.s) && Going(e, g, roots, stable, []) && StartsFrom(st, e.Now())
  {
    hide Inv, Accounts, ReadyOnly, Resumed, Fresh, Ran, StartsFrom;
    e := new Evaluation(g, st, roots, stable);
    ghost var m := e.Now();
    Resume(e);
    RanNothing(g, e.roots, stable, m, e.Now());
    StatesAtStart(g, e.roots, stable, m, e.Now());
  }

  lemma StatesAtStart(g: Graph, roots: set<Task>, stable: bool, m: Moment, next: Moment)
    requires Sane(g, roots, stable, m) && Resumed(m, next)
    ensures StartsFrom(m.s.st, next)
  {
    hide Inv, Accounts;
    SaneIsLight(g, roots, stable, m);
  }

  /** One turn of the loop. */
  method TakeTurn(e: Evaluation, event: Event, ghost g: Graph, ghost roots: seq<Task>, ghost stable: bool,
                  ghost trace: seq<Turn>)
    returns (ghost trace': seq<Turn>)
    requires Going(e, g, roots, stable, trace) && !e.s.Done()
    modifies e, e.s
    ensures Going(e, g, roots, stable, trace')
    ensures |trace'| == |trace| + 1 && trace'[..|trace|] == trace && trace'[|trace|].event == event
    ensures trace'[|trace|].before == old(e.Now())
  {
    hide Inv, Accounts, ReadyOnly, Resumed, Fresh, Ran, Took;
    ghost var before := e.Now();
    e.Handle(event);
    ghost var after := e.Now();
    Resume(e);
    MakeTurn(g, e.roots, stable, trace, Turn(before, event, after), e.Now());
    trace' := trace + [Turn(before, event, after)];
  }

  /** The laws of a run, about its last moment. */
  lemma Laws(g: Graph, roots: seq<Task>, stable: bool, trace: seq<Turn>, last: Moment, script: seq<Event>)
    requires Ran(g, Elems(roots), stable, trace, last) && Fresh(At(trace, last, 0)) && Follows(trace, last, script)
    ensures last.l.returned == Deliveries(trace, stable)
    ensures stable && Rounds(script, g.nodes.Keys, 5 * |g.nodes|) ==> last.Over()
    ensures Smooth(script) ==> !last.err && forall t :: last.l.submitted[t] <= 1
    ensures Smooth(script) && Rounds(script, g.nodes.Keys, |g.nodes|) ==> last.Over()
  {
    hide Ran, Rounds, Smooth, Deliveries;
    ReturnedFromFresh(g, Elems(roots), stable, trace, last);
    if stable && Rounds(script, g.nodes.Keys, 5 * |g.nodes|) {
      RoundsSuffice(g, roots, stable, trace, last, script);
    }
    if Smooth(script) {
      CalmAll(g, Elems(roots), stable, trace, last, |trace|, script);
      if Rounds(script, g.nodes.Keys, |g.nodes|) {
        SmoothRoundsSuffice(g, Elems(roots), stable, trace, last, script);
      }
    }
  }

  lemma ReturnedFromFresh(g: Graph, roots: set<Task>, stable: bool, trace: seq<Turn>, last: Moment)
    requires Ran(g, roots, stable, trace, last) && Fresh(At(trace, last, 0))
    ensures last.l.returned == Deliveries(trace, stable)
  {
    hide Ran, Deliveries;
    ReturnedExactly(g, roots, stable, trace, last, |trace|);
    assert trace[..|trace|] == trace;
  }

  /** The laws of failure. */
  lemma FailureLaws(g: Graph, roots: set<Task>, stable: bool, trace: seq<Turn>, last: Moment, script: seq<Event>)
    requires Ran(g, roots, stable, trace, last) && Fresh(At(trace, last, 0)) && Follows(trace, last, script)
    ensures last.err <==> exists i: nat :: i < |trace| && DeliversErr(trace[i], stable)
    ensures (exists i: nat :: i < |trace| && DeliversGivenUp(trace, i, stable)) ==> last.err
    ensures forall t :: t in last.s.st && LostFiveTimes(Endings(trace, t)) ==> last.s.st[t].Err?
    ensures NoFailures(script) ==> forall t :: t in last.s.st && last.s.st[t].Err? ==> LostFiveTimes(Endings(trace, t))
    ensures NoFailures(script) && (forall t :: !LostFiveTimes(Endings(trace, t))) ==> !last.err
  {
    hide Ran, LostFiveTimes, Endings, NoFailures, Allowed, Follows, Light;
    FailsExactly(g, roots, stable, trace, last);
    forall i: nat | i < |trace| && DeliversGivenUp(trace, i, stable)
      ensures last.err
    {
      FifthLossFails(g, roots, stable, trace, last, script, i);
    }
    LastInBooks(g, roots, stable, trace, last);
    forall t | t in last.s.st
      ensures Tracks(last, t, Endings(trace, t), NoFailures(script))
    {
      TracksAll(g, roots, stable, trace, last, |trace|, t, script);
      assert trace[..|trace|] == trace;
    }
    if last.err && NoFailures(script) {
      FailureExplained(g, roots, stable, trace, last, script);
    }
  }

  lemma LastInBooks(g: Graph, roots: set<Task>, stable: bool, trace: seq<Turn>, last: Moment)
    requires Ran(g, roots, stable, trace, last)
    ensures last.l.consecutiveLost.Keys == last.s.st.Keys
  {
    hide TurnOk, Inv, Tallied, Bounded;
  }

  // Laws about the script alone.

  /** How many changes of the script lose task t. */
  ghost function Losses(script: seq<Event>, t: Task): nat {
    if script == [] then 0
    else
      var n := |script| - 1;
      Losses(script[..n], t) + if Loses(script[n], t) then 1 else 0
  }

  ghost predicate Loses(event: Event, t: Task) {
    !event.Settle? && t in event.changes && event.changes[t].Lost?
  }

  ghost function CountLost(endings: seq<TaskState>): nat {
    if endings == [] then 0
    else
      var n := |endings| - 1;
      CountLost(endings[..n]) + if endings[n].Lost? then 1 else 0
  }

  lemma CountLostNext(endings: seq<TaskState>, x: TaskState)
    ensures CountLost(endings + [x]) == CountLost(endings) + if x.Lost? then 1 else 0
  {
    assert (endings + [x])[..|endings|] == endings;
  }

  lemma {:induction false} CountLostTail(endings: seq<TaskState>, k: nat, n: nat)
    requires k + n <= |endings| && forall i :: k <= i < k + n ==> endings[i].Lost?
    ensures CountLost(endings) >= n
    decreases |endings|
  {
    if n > 0 {
      CountLostTail(endings[..|endings| - 1], k, if k + n == |endings| then n - 1 else n);
    }
  }

  lemma LostOnes(endings: seq<TaskState>, k: nat)
    requires LostFrom(endings, k)
    ensures forall i :: k <= i < k + 5 ==> endings[i].Lost?
  {
    forall i | k <= i < k + 5
      ensures endings[i].Lost?
    {
      assert endings[i] == endings[k..k + 5][i - k];
    }
  }

  /** Every loss that was noticed, or is about to be, is a change of the script. */
  ghost predicate LossesCovered(m: Moment, t: Task, endings: seq<TaskState>, losses: nat) {
    CountLost(endings) + (if t in m.l.waiting && t in m.s.st && m.s.st[t].Lost? then 1 else 0) <= losses
  }

  lemma CoveredTurn(stable: bool, turn: Turn, next: Moment, t: Task, endings: seq<TaskState>, losses: nat)
    requires Stepped(stable, turn, next) && LossesCovered(turn.before, t, endings, losses)
    ensures LossesCovered(next, t, endings + (if Notices(turn, t) then [turn.before.s.st[t]] else []),
                          losses + if Loses(turn.event, t) then 1 else 0)
  {
    hide Resumed, Allowed, CountLost;
    if Notices(turn, t) {
      CountLostNext(endings, turn.before.s.st[t]);
    } else {
      assert endings + [] == endings;
    }
    CoveredResumed(turn.after, next, t);
  }

  lemma CoveredResumed(m: Moment, next: Moment, t: Task)
    requires Light(m) && Resumed(m, next)
    ensures t in next.l.waiting && t in next.s.st && next.s.st[t].Lost? ==>
              t in m.l.waiting && t in m.s.st && m.s.st[t].Lost?
  {
  }

  lemma {:induction false} CoveredAll(g: Graph, roots: set<Task>, stable: bool, trace: seq<Turn>, last: Moment, i: nat,
                                      t: Task, script: seq<Event>)
    requires Ran(g, roots, stable, trace, last) && Follows(trace, last, script) && i <= |trace|
    requires t in At(trace, last, 0).l.waiting && t in At(trace, last, 0).s.st ==> !At(trace, last, 0).s.st[t].Lost?
    ensures LossesCovered(At(trace, last, i), t, Endings(trace[..i], t), Losses(script[..i], t))
  {
    hide Ran, Stepped, Notices, Loses;
    if i > 0 {
      CoveredAll(g, roots, stable, trace, last, i - 1, t, script);
      StepAt(g, roots, stable, trace, last, i - 1);
      assert trace[..i][..i - 1] == trace[..i - 1] && script[..i][..i - 1] == script[..i - 1];
      CoveredTurn(stable, trace[i - 1], At(trace, last, i), t, Endings(trace[..i - 1], t), Losses(script[..i - 1], t));
    }
  }

  lemma {:induction false} LossesGrow(script: seq<Event>, i: nat, t: Task)
    requires i <= |script|
    ensures Losses(script[..i], t) <= Losses(script, t)
  {
    hide Loses;
    if i < |script| {
      var n := |script| - 1;
      LossesGrow(script[..n], i, t);
      assert script[..n][..i] == script[..i];
    } else {
      assert script[..i] == script;
    }
  }

  /** Retries: without failures, and with fewer than five losses of each task, the evaluation does not fail. */
  lemma FewLosses(g: Graph, roots: set<Task>, stable: bool, trace: seq<Turn>, last: Moment, script: seq<Event>)
    requires Ran(g, roots, stable, trace, last) && Fresh(At(trace, last, 0)) && Follows(trace, last, script)
    requires NoFailures(script) && forall t :: Losses(script, t) < 5
    ensures !last.err
  {
    hide Ran, NoFailures, Follows, Losses, Endings, CountLost;
    if last.err {
      FailureExplained(g, roots, stable, trace, last, script);
      var t :| LostFiveTimes(Endings(trace, t));
      var k: nat :| LostFrom(Endings(trace, t), k);
      LostOnes(Endings(trace, t), k);
      CountLostTail(Endings(trace, t), k, 5);
      Covered(g, roots, stable, trace, last, t, script);
    }
  }

  lemma Covered(g: Graph, roots: set<Task>, stable: bool, trace: seq<Turn>, last: Moment, t: Task, script: seq<Event>)
    requires Ran(g, roots, stable, trace, last) && Fresh(At(trace, last, 0)) && Follows(trace, last, script)
    ensures CountLost(Endings(trace, t)) <= Losses(script, t)
  {
    hide Ran, Losses, Endings, CountLost;
    FreshNotLost(g, roots, stable, trace, last, t);
    CoveredAll(g, roots, stable, trace, last, |trace|, t, script);
    LossesGrow(script, |trace|, t);
    assert trace[..|trace|] == trace;
  }

  lemma FreshNotLost(g: Graph, roots: set<Task>, stable: bool, trace: seq<Turn>, last: Moment, t: Task)
    requires Ran(g, roots, stable, trace, last) && Fresh(At(trace, last, 0))
    ensures var m := At(trace, last, 0); t in m.l.waiting && t in m.s.st ==> !m.s.st[t].Lost?
  {
    hide TurnOk;
    var m := At(trace, last, 0);
    if |trace| > 0 {
      FirstSane(g, roots, stable, trace, last);
    }
    FreshSane(g, roots, stable, m, t);
  }

  lemma FirstSane(g: Graph, roots: set<Task>, stable: bool, trace: seq<Turn>, last: Moment)
    requires Ran(g, roots, stable, trace, last) && |trace| > 0
    ensures Sane(g, roots, stable, trace[0].before)
  {
    hide Sane, Resting, Took, Resumed;
    assert TurnOk(g, roots, stable, trace[0], At(trace, last, 1));
  }

  lemma FreshSane(g: Graph, roots: set<Task>, stable: bool, m: Moment, t: Task)
    requires Sane(g, roots, stable, m) && Fresh(m)
    ensures t in m.l.waiting && t in m.s.st ==> !m.s.st[t].Lost?
  {
    hide Inv, Accounts;
    SaneIsLight(g, roots, stable, m);
    if t in m.l.waiting {
      assert t in m.s.pending;
      assert m.l.submitted[t] == 1;
    }
  }

  /** Every change is a loss. */
  ghost predicate OnlyLosses(script: seq<Event>) {
    forall i: nat :: i < |script| ==>
      script[i].Settle? || forall t :: t in script[i].changes ==> script[i].changes[t].Lost?
  }

  lemma {:induction false} NothingCompletes(g: Graph, roots: set<Task>, stable: bool, trace: seq<Turn>, last: Moment,
                                            i: nat, script: seq<Event>, t: Task)
    requires Ran(g, roots, stable, trace, last) && Follows(trace, last, script) && i <= |trace| && OnlyLosses(script)
    requires t in At(trace, last, 0).s.st && !At(trace, last, 0).s.st[t].Ok?
    ensures t in At(trace, last, i).s.st && !At(trace, last, i).s.st[t].Ok?
  {
    hide Ran, Stepped;
    if i > 0 {
      NothingCompletes(g, roots, stable, trace, last, i - 1, script, t);
      StepAt(g, roots, stable, trace, last, i - 1);
      NotCompleted(stable, trace[i - 1], At(trace, last, i), t);
    }
  }

  lemma NotCompleted(stable: bool, turn: Turn, next: Moment, t: Task)
    requires Stepped(stable, turn, next) && t in turn.before.s.st && !turn.before.s.st[t].Ok?
    requires !turn.event.Settle? ==> forall u :: u in turn.event.changes ==> turn.event.changes[u].Lost?
    ensures t in next.s.st && !next.s.st[t].Ok?
  {
    hide Resumed, Allowed;
    assert t in turn.after.s.st && !turn.after.s.st[t].Ok?;
    NotCompletedResumed(turn.after, next, t);
  }

  lemma NotCompletedResumed(m: Moment, next: Moment, t: Task)
    requires Resumed(m, next) && t in m.s.st && !m.s.st[t].Ok?
    ensures t in next.s.st && !next.s.st[t].Ok?
  {
  }

  /** Giving up: when everything that is run is lost, again and again, an evaluation with something to do fails. */
  lemma AlwaysLost(g: Graph, roots: seq<Task>, stable: bool, trace: seq<Turn>, last: Moment, script: seq<Event>,
                   r: Task)
    requires Ran(g, Elems(roots), stable, trace, last) && Fresh(At(trace, last, 0)) && Follows(trace, last, script)
    requires stable && OnlyLosses(script) && Rounds(script, g.nodes.Keys, 5 * |g.nodes|)
    requires r in roots && r in At(trace, last, 0).s.st && !At(trace, last, 0).s.st[r].Ok?
    ensures last.err
  {
    hide Rounds, Inv, Accounts, TurnOk, OnlyLosses, Resting;
    RoundsSuffice(g, roots, stable, trace, last, script);
    NothingCompletes(g, Elems(roots), stable, trace, last, |trace|, script, r);
    Conclude(g, last.s, last.l, roots, last.err, stable);
  }

  /** The states before the first turn: queued tasks were handed out, and no others changed. */
  ghost predicate StartsFrom(st: map<Task, TaskState>, m: Moment) {
    m.s.st.Keys == st.Keys && forall t :: t in st ==> m.s.st[t] == st[t] || (st[t].Live() && m.s.st[t].Waiting?)
  }

  /** The results at the end. */
  lemma ResultLaws(g: Graph, roots: seq<Task>, stable: bool, trace: seq<Turn>, last: Moment)
    requires Ran(g, Elems(roots), stable, trace, last)
    ensures last.Over() && !last.err ==> forall r :: r in roots ==> r in last.s.seenOk
    ensures last.Over() && !last.err && stable ==> forall r :: r in roots ==> r in last.s.st && last.s.st[r].Ok?
    ensures stable ==> (forall t :: last.l.submitted[t] <= 5) && |last.l.returned| <= 5 * |g.nodes|
    ensures stable && |last.l.returned| == 5 * |g.nodes| ==> last.Over()
  {
    hide TurnOk, Inv, Accounts, Resting;
    Conclude(g, last.s, last.l, roots, last.err, stable);
  }

  lemma ScriptLaws(g: Graph, roots: seq<Task>, stable: bool, trace: seq<Turn>, last: Moment, script: seq<Event>,
                   st: map<Task, TaskState>)
    requires Ran(g, Elems(roots), stable, trace, last) && Fresh(At(trace, last, 0)) && Follows(trace, last, script)
    requires StartsFrom(st, At(trace, last, 0)) && forall r :: r in roots ==> r in st
    ensures NoFailures(script) && (forall t :: Losses(script, t) < 5) ==> !last.err
    ensures stable && OnlyLosses(script) && Rounds(script, g.nodes.Keys, 5 * |g.nodes|) ==>
              (exists r :: r in roots && !st[r].Ok?) ==> last.err
  {
    hide Ran, Fresh, Follows, NoFailures, Losses, OnlyLosses, Rounds;
    if NoFailures(script) && forall t :: Losses(script, t) < 5 {
      FewLosses(g, Elems(roots), stable, trace, last, script);
    }
    if stable && OnlyLosses(script) && Rounds(script, g.nodes.Keys, 5 * |g.nodes|) {
      forall r | r in roots && !st[r].Ok?
        ensures last.err
      {
        AlwaysLost(g, roots, stable, trace, last, script, r);
      }
    }
  }

  lemma AtStart(m: Moment)
    ensures At([], m, 0) == m
  {
  }

  lemma SameStart(trace: seq<Turn>, m: Moment, trace': seq<Turn>, m': Moment)
    requires |trace'| == |trace| + 1 && trace'[..|trace|] == trace && trace'[|trace|].before == m
    ensures At(trace', m', 0) == At(trace, m, 0)
  {
    if trace != [] {
      assert trace'[0] == trace'[..|trace|][0];
    }
  }

  lemma GoneThrough(e: Evaluation, g: Graph, roots: seq<Task>, stable: bool, trace: seq<Turn>, script: seq<Event>)
    requires Going(e, g, roots, stable, trace) && |trace| <= |script| && (|trace| < |script| ==> e.s.Done())
    requires forall i: nat :: i < |trace| ==> trace[i].event == script[i]
    ensures Ran(g, Elems(roots), stable, trace, e.Now()) && Fresh(At(trace, e.Now(), 0))
    ensures Follows(trace, e.Now(), script)
    ensures e.s.Done() == e.Now().Over() && e.s.err == e.Now().err && e.s.st == e.Now().s.st
  {
    hide Inv, Accounts, Ran, Fresh;
  }

  method Loop(g: Graph, st: map<Task, TaskState>, roots: seq<Task>, stable: bool, script: seq<Event>)
    returns (done: bool, err: bool, st': map<Task, TaskState>, ghost trace: seq<Turn>, ghost last: Moment)
    requires g.WellFormed() && st.Keys == g.nodes.Keys && (forall r :: r in roots ==> r in g.nodes)
    requires forall t :: t in st ==> st[t].Live() || st[t].Ok?
    ensures done == last.Over() && err == last.err && st' == last.s.st
    ensures Ran(g, Elems(roots), stable, trace, last) && StartsFrom(st, At(trace, last, 0))
    ensures Fresh(At(trace, last, 0)) && Follows(trace, last, script)
  {
    hide *;
    var e := Begin(g, st, roots, stable);
    trace := [];
    var k := 0;
    AtStart(e.Now());
    while k < |script| && !e.s.Done()
      invariant k <= |script| && fresh(e) && fresh(e.s) && Going(e, g, roots, stable, trace)
      invariant |trace| == k && forall i: nat :: i < |trace| ==> trace[i].event == script[i]
      invariant StartsFrom(st, At(trace, e.Now(), 0))
    {
      ghost var before, m := trace, e.Now();
      trace := TakeTurn(e, script[k], g, roots, stable, trace);
      SameStart(before, m, trace, e.Now());
      k := k + 1;
    }
    last := e.Now();
    GoneThrough(e, g, roots, stable, trace, script);
    done, err, st' := e.s.Done(), e.s.err, e.s.st;
  }

  /**
   Evaluates the task graphs rooted at `roots`, for as long as the script goes.
   When it ends without an error every root has been seen complete; and if
   finished results stay available, every root is complete at the end.

   It gets there: the tasks returned are exactly those that could be delivered,
   and if results stay available five rounds for each task in which every task
   is finished, noticed and delivered are enough, whatever fails or is lost;
   without losses, one round for each task. It fails exactly if a failed task is
   delivered, and a task fails exactly if an executor says so or it was lost
   five times in a row.
   */
  method Eval(g: Graph, st: map<Task, TaskState>, roots: seq<Task>, stable: bool, script: seq<Event>)
    returns (done: bool, err: bool, st': map<Task, TaskState>, ghost trace: seq<Turn>, ghost last: Moment)
    requires g.WellFormed() && st.Keys == g.nodes.Keys && (forall r :: r in roots ==> r in g.nodes)
    requires forall t :: t in st ==> st[t].Live() || st[t].Ok?
    // The run.
    ensures done == last.Over() && err == last.err && st' == last.s.st
    ensures Follows(trace, last, script) && StartsFrom(st, At(trace, last, 0))
    ensures last.l.returned == Deliveries(trace, stable)
    // Results.
    ensures done && !err ==> forall r :: r in roots ==> r in last.s.seenOk
    ensures done && !err && stable ==> forall r :: r in roots ==> r in st' && st'[r].Ok?
    ensures stable ==> (forall t :: last.l.submitted[t] <= 5) && |last.l.returned| <= 5 * |g.nodes|
    // Progress.
    ensures stable && |last.l.returned| == 5 * |g.nodes| ==> done
    ensures stable && Rounds(script, g.nodes.Keys, 5 * |g.nodes|) ==> done
    ensures Smooth(script) ==> !err && forall t :: last.l.submitted[t] <= 1
    ensures Smooth(script) && Rounds(script, g.nodes.Keys, |g.nodes|) ==> done
    // Failures.
    ensures err <==> exists i: nat :: i < |trace| && DeliversErr(trace[i], stable)
    ensures (exists i: nat :: i < |trace| && DeliversGivenUp(trace, i, stable)) ==> err
    ensures forall t :: t in st' && LostFiveTimes(Endings(trace, t)) ==> st'[t].Err?
    ensures NoFailures(script) ==> forall t :: t in st' && st'[t].Err? ==> LostFiveTimes(Endings(trace, t))
    ensures NoFailures(script) && (forall t :: !LostFiveTimes(Endings(trace, t))) ==> !err
    ensures NoFailures(script) && (forall t :: Losses(script, t) < 5) ==> !err
    ensures stable && OnlyLosses(script) && Rounds(script, g.nodes.Keys, 5 * |g.nodes|) ==>
              (exists r :: r in roots && !st[r].Ok?) ==> err
    // Turn by turn.
    ensures Ran(g, Elems(roots), stable, trace, last)
  {
    hide *;
    done, err, st', trace, last := Loop(g, st, roots, stable, script);
    ResultLaws(g, roots, stable, trace, last);
    Laws(g, roots, stable, trace, last, script);
    FailureLaws(g, Elems(roots), stable, trace, last, script);
    ScriptLaws(g, roots, stable, trace, last, script, st);
  }
}
