/**
 The task graph that the evaluator works on (exec/task.go).

 A task names the head of each phase it depends on. Tasks that feed the same
 shuffle form a group and are tracked as one phase.
 */
module TaskGraph {

  type Task = nat

  /** The states of a task, in order of progression. */
  datatype TaskState = Init | Waiting | Running | Ok | Err | Lost {
    /** The state needs no further work from the evaluator's waitlists. */
    predicate Finished() {
      Ok? || Err?
    }

    /** The task has to be (re)submitted before it can make progress. */
    predicate Live() {
      Init? || Lost?
    }

    /** An executor is responsible for the task. */
    predicate InFlight() {
      Waiting? || Running?
    }
  }

  /** The static part of a task: its group (possibly empty) and the heads of its dependencies. */
  datatype Node = Node(group: seq<Task>, deps: seq<Task>)

  ghost predicate Distinct<T(!new)>(s: seq<T>) {
    forall i, j :: 0 <= i < j < |s| ==> s[i] != s[j]
  }

  /** `rank` witnesses that the graph of phases is acyclic. */
  datatype Graph = Graph(nodes: map<Task, Node>, rank: Task -> nat) {

    function Deps(t: Task): seq<Task>
      requires t in nodes
    {
      nodes[t].deps
    }

    function Phase(t: Task): seq<Task>
      requires t in nodes
    {
      if |nodes[t].group| == 0 then [t] else nodes[t].group
    }

    function Head(t: Task): Task
      requires t in nodes
    {
      if |nodes[t].group| == 0 then t else nodes[t].group[0]
    }

    /** The number of tasks comprised by a dependency on `head`. */
    function NumTask(head: Task): nat
      requires head in nodes
    {
      if |nodes[head].group| > 0 then |nodes[head].group| else 1
    }

    /** The i'th task comprised by a dependency on `head`. */
    function DepTask(head: Task, i: nat): Task
      requires head in nodes && i < NumTask(head)
    {
      if i == 0 then head else nodes[head].group[i]
    }

    ghost predicate GroupOk(t: Task)
      requires t in nodes
    {
      var group := nodes[t].group;
      && Distinct(group)
      && (group != [] ==> t in group)
      && forall u :: u in group ==> u in nodes && nodes[u].group == group
    }

    ghost predicate DepsOk(t: Task)
      requires t in nodes && GroupOk(t)
    {
      forall h :: h in nodes[t].deps ==>
        h in nodes && GroupOk(h) && Head(h) == h && rank(h) < rank(Head(t))
    }

    ghost predicate WellFormed() {
      forall t :: t in nodes ==> GroupOk(t) && DepsOk(t)
    }
  }

  /** A phase is the same seen from each of its tasks, and lists each of them once. */
  lemma PhaseFacts(g: Graph, t: Task)
    requires g.WellFormed() && t in g.nodes
    ensures t in g.Phase(t) && Distinct(g.Phase(t))
    ensures g.Head(t) in g.nodes && g.Head(g.Head(t)) == g.Head(t)
    ensures g.Phase(g.Head(t)) == g.Phase(t)
    ensures forall u :: u in g.Phase(t) ==> u in g.nodes && g.Head(u) == g.Head(t) && g.Phase(u) == g.Phase(t)
  {
    assert g.GroupOk(t);
  }

  /** Expanding a dependency task by task gives exactly the phase of its head. */
  lemma DependencyIsPhase(g: Graph, t: Task, h: Task)
    requires g.WellFormed() && t in g.nodes && h in g.Deps(t)
    ensures h in g.nodes
    ensures seq(g.NumTask(h), i requires 0 <= i < g.NumTask(h) => g.DepTask(h, i)) == g.Phase(h)
  {
    assert g.GroupOk(t) && g.DepsOk(t);
    var s := seq(g.NumTask(h), i requires 0 <= i < g.NumTask(h) => g.DepTask(h, i));
    assert s[0] == g.Phase(h)[0];
  }

  /** The number of elements of `s` that lie in `x`. */
  ghost function CountIn(s: seq<Task>, x: set<Task>): nat {
    if s == [] then 0 else CountIn(s[..|s| - 1], x) + if s[|s| - 1] in x then 1 else 0
  }

  lemma {:induction false} CountMono(s: seq<Task>, x: set<Task>, y: set<Task>)
    requires forall t :: t in s && t in x ==> t in y
    ensures CountIn(s, x) <= CountIn(s, y)
  {
    if s != [] {
      CountMono(s[..|s| - 1], x, y);
    }
  }

  lemma {:induction false} CountNone(s: seq<Task>, x: set<Task>)
    requires CountIn(s, x) == 0
    ensures forall t :: t in s ==> t !in x
  {
    if s != [] {
      CountNone(s[..|s| - 1], x);
    }
  }

  /** A positive count has a witness. */
  lemma {:induction false} CountWitness(s: seq<Task>, x: set<Task>) returns (t: Task)
    requires CountIn(s, x) > 0
    ensures t in s && t in x
  {
    if s[|s| - 1] in x {
      t := s[|s| - 1];
    } else {
      t := CountWitness(s[..|s| - 1], x);
    }
  }

  /** Losing one task loses at most one from the count. */
  lemma {:induction false} CountMinusOne(s: seq<Task>, x: set<Task>, y: set<Task>, u: Task)
    requires Distinct(s)
    requires forall t :: t in s && t in x && t != u ==> t in y
    ensures CountIn(s, x) <= CountIn(s, y) + 1
    ensures u !in s ==> CountIn(s, x) <= CountIn(s, y)
  {
    if u !in s {
      CountMono(s, x, y);
    } else if s != [] {
      var r := s[..|s| - 1];
      if s[|s| - 1] == u {
        CountMono(r, x, y);
      } else {
        CountMinusOne(r, x, y, u);
      }
    }
  }
}
