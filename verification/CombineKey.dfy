/**
 The life of a combine key on a worker (exec/bigmachine.go): tasks share one
 combiner for each partition, handed over through channels of capacity one,
 until the combiners are written out and committed. Each method is one step
 of a task, of a committer or of the writer; steps interleave arbitrarily.
 */
module CombineKey {

  type Id = nat

  // States; those above IDLE count the tasks that are combining.
  const NONE: nat := 0
  const WRITING: nat := 1
  const COMMITTED: nat := 2
  const ERROR: nat := 3
  const IDLE: nat := 4

  datatype Entry = Entered | StillWriting | AlreadyCommitted | Broken
  datatype Answer = Wait | Done | Failed | Busy | Unknown

  /** Rows flushed by a task. */
  datatype Flush<V> = Flush(task: Id, rows: seq<V>)

  datatype Event<V> =
    | Enter(task: Id)
    | Take(task: Id, part: nat)
    | Combine(task: Id, rows: seq<V>)
    | Put(task: Id)
    | Leave(task: Id)
    | Commit
    | Collect
    | Finish(failed: bool)
    | Discard

  ghost predicate HoldsAlone(held: map<Id, nat>, t: Id, p: nat) {
    t in held && held[t] == p && forall u :: u in held && held[u] == p ==> u == t
  }

  /** The combiner of a partition is in its channel or held by exactly one task. */
  ghost predicate OnePlace(channel: seq<bool>, held: map<Id, nat>, p: nat)
    requires p < |channel|
  {
    if channel[p] then forall t :: t in held ==> held[t] != p
    else exists t :: HoldsAlone(held, t, p)
  }

  ghost predicate Handed(channel: seq<bool>, held: map<Id, nat>) {
    && (forall t :: t in held ==> held[t] < |channel|)
    && (forall p: nat :: p < |channel| ==> OnePlace(channel, held, p))
  }

  lemma TakeKeeps(channel: seq<bool>, held: map<Id, nat>, t: Id, p: nat)
    requires Handed(channel, held) && t !in held && p < |channel| && channel[p]
    ensures Handed(channel[p := false], held[t := p])
  {
    var channel', held' := channel[p := false], held[t := p];
    assert HoldsAlone(held', t, p) by {
      assert OnePlace(channel, held, p);
    }
    forall q: nat | q < |channel|
      ensures OnePlace(channel', held', q)
    {
      assert OnePlace(channel, held, q);
      if q != p && !channel[q] {
        var u :| HoldsAlone(held, u, q);
        assert HoldsAlone(held', u, q);
      }
    }
  }

  lemma PutKeeps(channel: seq<bool>, held: map<Id, nat>, t: Id)
    requires Handed(channel, held) && t in held
    ensures !channel[held[t]] && Handed(channel[held[t] := true], held - {t})
  {
    var p := held[t];
    assert OnePlace(channel, held, p);
    var channel', held' := channel[p := true], held - {t};
    forall q: nat | q < |channel|
      ensures OnePlace(channel', held', q)
    {
      assert OnePlace(channel, held, q);
      if q != p && !channel[q] {
        var u :| HoldsAlone(held, u, q);
        assert HoldsAlone(held', u, q);
      }
    }
  }

  /** Everything flushed into a partition, in order. */
  ghost function Logged<V>(log: seq<(nat, Flush<V>)>, p: nat): seq<Flush<V>> {
    if log == [] then []
    else
      var last := log[|log| - 1];
      Logged(log[..|log| - 1], p) + if last.0 == p then [last.1] else []
  }

  /** What the combiners of all partitions hold. */
  ghost predicate Holds<V>(contents: seq<seq<Flush<V>>>, nparts: nat, log: seq<(nat, Flush<V>)>) {
    |contents| == nparts && forall p: nat :: p < nparts ==> contents[p] == Logged(log, p)
  }

  lemma HoldsMore<V>(contents: seq<seq<Flush<V>>>, nparts: nat, log: seq<(nat, Flush<V>)>, p: nat, f: Flush<V>)
    requires Holds(contents, nparts, log) && p < nparts
    ensures Holds(contents[p := contents[p] + [f]], nparts, log + [(p, f)])
  {
    assert (log + [(p, f)])[..|log|] == log;
  }

  /** A combine key without its channels and combiners. */
  datatype View<V> = View(state: nat, active: set<Id>, held: map<Id, nat>, collected: bool, log: seq<(nat, Flush<V>)>)

  /** What an event makes of a key; in a state in which it cannot happen, nothing. */
  ghost function After<V>(v: View<V>, nparts: nat, e: Event<V>): View<V> {
    match e
    case Enter(t) =>
      if t in v.active || WRITING <= v.state <= ERROR then v
      else v.(state := (if v.state == NONE then IDLE else v.state) + 1, active := v.active + {t})
    case Take(t, p) =>
      if t in v.active && t !in v.held && p < nparts && (forall u :: u in v.held ==> v.held[u] != p)
      then v.(held := v.held[t := p]) else v
    case Combine(t, rows) => if t in v.held then v.(log := v.log + [(v.held[t], Flush(t, rows))]) else v
    case Put(t) => v.(held := v.held - {t})
    case Leave(t) =>
      if t in v.active && t !in v.held && v.state > 0 then v.(state := v.state - 1, active := v.active - {t}) else v
    case Commit => if v.state == IDLE then v.(state := WRITING, collected := false) else v
    case Collect => if v.state == WRITING then v.(collected := true) else v
    case Finish(failed) =>
      if v.state == WRITING && v.collected then v.(state := if failed then ERROR else COMMITTED) else v
    case Discard => if v.state == COMMITTED then v.(state := NONE, log := []) else v
  }

  /** The state counts the tasks that are combining, and only those hold combiners. */
  ghost predicate Counted<V>(v: View<V>) {
    && (v.state >= IDLE ==> v.state == IDLE + |v.active|) && (v.state < IDLE ==> v.active == {})
    && v.held.Keys <= v.active
  }

  lemma StepLaws<V>(v: View<V>, nparts: nat, e: Event<V>)
    requires Counted(v)
    ensures var v' := After(v, nparts, e);
            && (if e.Discard? && v.state == COMMITTED then v'.log == [] else v.log <= v'.log)
            && (v.state >= IDLE && v'.state < IDLE ==> v'.state == WRITING)
            && (v'.state == WRITING && v.state != WRITING ==> v.state == IDLE && v.active == {} && v'.log == v.log)
            && (v.state == WRITING ==>
                  (v'.state == WRITING || v'.state == COMMITTED || v'.state == ERROR) && v'.log == v.log)
            && (v.state == COMMITTED ==>
                  if e.Discard? then v'.state == NONE else v'.state == COMMITTED && v'.log == v.log)
            && (v.state == ERROR ==> v'.state == ERROR && v'.log == v.log)
  {
    if v.state == IDLE {
      assert |v.active| == 0;
    }
  }

  ghost function Played<V>(v: View<V>, nparts: nat, events: seq<Event<V>>): View<V> {
    if events == [] then v
    else After(Played(v, nparts, events[..|events| - 1]), nparts, events[|events| - 1])
  }

  class KeyState<V(!new)> {
    const nparts: nat
    var state: nat
    // channel[p] tells whether the combiner of partition p is in its channel.
    var channel: seq<bool>
    // What has been combined into each partition.
    var contents: seq<seq<Flush<V>>>
    // What the writer has taken out, once it has.
    var collected: bool
    var written: seq<seq<Flush<V>>>
    // The tasks between Enter and Leave, and the partition whose combiner a task holds.
    var active: set<Id>
    var held: map<Id, nat>
    // All flushes made since the key was new, with their partitions.
    ghost var log: seq<(nat, Flush<V>)>

    ghost function Now(): View<V>
      reads this
    {
      View(state, active, held, collected, log)
    }

    ghost predicate Valid()
      reads this
    {
      && (state >= IDLE ==> state == IDLE + |active|)
      && (state < IDLE ==> active == {})
      && held.Keys <= active
      && (state == NONE ==> log == [])
      && (state >= IDLE || state == WRITING ==> |channel| == nparts && Holds(contents, nparts, log))
      && (state >= IDLE ==> Handed(channel, held))
      && (state == WRITING && !collected ==> forall p: nat :: p < nparts ==> channel[p])
      && (state == WRITING && collected ==> written == contents)
      && (state == COMMITTED ==> Holds(written, nparts, log))
    }

    constructor (nparts: nat)
      ensures Valid() && state == NONE && active == {} && this.nparts == nparts
    {
      this.nparts := nparts;
      state, channel, contents, collected, written := NONE, [], [], false, [];
      active, held, log := {}, map[], [];
    }

    /** A task starts combining; the first one creates the combiners. */
    method Enter(t: Id) returns (r: Entry)
      requires Valid() && t !in active
      modifies this
      ensures Valid()
      ensures r == Entered <==> old(state) == NONE || old(state) >= IDLE
      ensures r == Entered ==> active == old(active) + {t} && state == IDLE + |active|
      ensures log == old(log) && held == old(held) && collected == old(collected) && (r != Entered ==> unchanged(this))
      ensures Now() == After(old(Now()), nparts, Event.Enter(t))
    {
      if state == WRITING {
        return StillWriting;
      }
      if state == COMMITTED {
        return AlreadyCommitted;
      }
      if state == ERROR {
        return Broken;
      }
      if state == NONE {
        channel := seq(nparts, _ => true);
        contents := seq(nparts, _ => []);
        state := IDLE;
      }
      state := state + 1;
      active := active + {t};
      r := Entered;
    }

    /** A task receives the combiner of a partition from its channel. */
    method Take(t: Id, p: nat)
      requires Valid() && t in active && t !in held && p < |channel| && channel[p]
      modifies this`channel, this`held
      ensures Valid() && held == old(held)[t := p] && !channel[p]
      ensures Now() == After(old(Now()), nparts, Event.Take(t, p))
    {
      Free(p);
      TakeKeeps(channel, held, t, p);
      held := held[t := p];
      channel := channel[p := false];
    }

    /** Rows are combined by the task that holds the combiner. */
    method Combine(t: Id, rows: seq<V>)
      requires Valid() && t in held
      modifies this`contents, this`log
      ensures Valid() && state > IDLE && log == old(log) + [(held[t], Flush(t, rows))]
      ensures Now() == After(old(Now()), nparts, Event.Combine(t, rows))
    {
      assert t in active;
      HoldsMore(contents, nparts, log, held[t], Flush(t, rows));
      log := log + [(held[t], Flush(t, rows))];
      contents := contents[held[t] := contents[held[t]] + [Flush(t, rows)]];
    }

    /** A task sends the combiner back; the channel always has room for it. */
    method Put(t: Id)
      requires Valid() && t in held
      modifies this`channel, this`held
      ensures Valid() && old(!channel[held[t]]) && channel == old(channel[held[t] := true]) && held == old(held) - {t}
      ensures Now() == After(old(Now()), nparts, Event.Put(t))
    {
      assert t in active;
      PutKeeps(channel, held, t);
      channel := channel[held[t] := true];
      held := held - {t};
    }

    /** A task is done combining. */
    method Leave(t: Id)
      requires Valid() && t in active && t !in held
      modifies this`state, this`active
      ensures Valid() && active == old(active) - {t} && state == IDLE + |active|
      ensures Now() == After(old(Now()), nparts, Event.Leave(t))
    {
      state := state - 1;
      active := active - {t};
    }

    /** A commit starts the writer if no task is combining. */
    method Commit() returns (r: Answer)
      requires Valid()
      modifies this`state, this`collected
      ensures Valid()
      ensures state != old(state) <==> old(state) == IDLE
      ensures old(state) == IDLE ==> state == WRITING && active == {} && !collected
      ensures old(state) != IDLE ==> collected == old(collected)
      ensures Now() == After(old(Now()), nparts, Event.Commit)
      ensures r == match old(state)
                   case 0 => Unknown
                   case 1 => Wait
                   case 2 => Done
                   case 3 => Failed
                   case 4 => Wait
                   case _ => Busy
    {
      if state == NONE {
        return Unknown;
      }
      if state == WRITING {
        return Wait;
      }
      if state == COMMITTED {
        return Done;
      }
      if state == ERROR {
        return Failed;
      }
      if state == IDLE {
        NoneHeld();
        state, collected := WRITING, false;
        return Wait;
      }
      return Busy;
    }

    lemma NoneHeld()
      requires Valid() && state == IDLE
      ensures active == {} && forall p: nat :: p < nparts ==> channel[p]
    {
      assert |active| == 0;
      forall p: nat | p < nparts
        ensures channel[p]
      {
        assert OnePlace(channel, held, p);
      }
    }

    /** The writer takes all combiners; it never has to wait for one. */
    method Collect()
      requires Valid() && state == WRITING && !collected
      modifies this`channel, this`collected, this`written
      ensures Valid() && collected && Holds(written, nparts, log)
      ensures old(forall p: nat :: p < nparts ==> channel[p])
      ensures Now() == After(old(Now()), nparts, Event.Collect)
    {
      channel := seq(nparts, _ => false);
      written, collected := contents, true;
    }

    /** The writer is done; the combiners are gone. */
    method Finish(failed: bool)
      requires Valid() && state == WRITING && collected
      modifies this`channel, this`contents, this`state
      ensures Valid() && state == if failed then ERROR else COMMITTED
      ensures Now() == After(old(Now()), nparts, Event.Finish(failed))
    {
      channel, contents := [], [];
      state := if failed then ERROR else COMMITTED;
    }

    /** The results of a committed key are given up; the key is as good as new. */
    method Discard()
      requires Valid() && state == COMMITTED
      modifies this`state, this`written, this`log
      ensures Valid() && state == NONE && log == []
      ensures Now() == After(old(Now()), nparts, Event.Discard)
    {
      state, written := NONE, [];
      log := [];
    }

    /** A combiner is in its channel exactly if no task holds it. */
    lemma Free(p: nat)
      requires Valid() && state >= IDLE
      ensures |channel| == nparts
      ensures p < nparts ==> (channel[p] <==> forall u :: u in held ==> held[u] != p)
    {
      if p < nparts {
        assert OnePlace(channel, held, p);
      }
    }

    /** What cannot happen does nothing. */
    lemma Skipped(e: Event<V>)
      requires Valid() && !Possible(e)
      ensures After(Now(), nparts, e) == Now()
    {
      hide Handed, Holds;
      match e {
        case Take(t, p) =>
          if t in active {
            Free(p);
          }
        case _ =>
      }
    }

    /** What may happen next; receiving from a channel has to wait until it is full. */
    predicate Possible(e: Event<V>)
      reads this
    {
      match e
      case Enter(t) => t !in active
      case Take(t, p) => t in active && t !in held && p < |channel| && channel[p]
      case Combine(t, _) => t in held
      case Put(t) => t in held
      case Leave(t) => t in active && t !in held
      case Commit => true
      case Collect => state == WRITING && !collected
      case Finish(_) => state == WRITING && collected
      case Discard => state == COMMITTED
    }

    /**
     Any one step. Writing starts only from idle, with no task combining, and
     from then on no rows enter. A key leaves the committed state only when it
     is discarded, and the error state never.
     */
    method Step(e: Event<V>)
      requires Valid() && Possible(e)
      modifies this
      ensures Now() == After(old(Now()), nparts, e)
      ensures Valid() && (if e.Discard? then log == [] else old(log) <= log)
      ensures old(state) >= IDLE && state < IDLE ==> state == WRITING
      ensures state == WRITING && old(state) != WRITING ==> old(state) == IDLE && old(active) == {} && log == old(log)
      ensures old(state) == WRITING ==> (state == WRITING || state == COMMITTED || state == ERROR) && log == old(log)
      ensures old(state) == COMMITTED ==> if e.Discard? then state == NONE else state == COMMITTED && log == old(log)
      ensures old(state) == ERROR ==> state == ERROR && log == old(log)
    {
      hide Valid, After;
      Counting();
      StepLaws(Now(), nparts, e);
      Dispatch(e);
    }

    lemma Counting()
      requires Valid()
      ensures Counted(Now())
    {
      hide Handed, Holds;
    }

    method Dispatch(e: Event<V>)
      requires Valid() && Possible(e)
      modifies this
      ensures Valid() && Now() == After(old(Now()), nparts, e)
    {
      hide Valid, After;
      match e {
        case Enter(t) =>
          var r := Enter(t);
        case Take(t, p) =>
          Take(t, p);
        case Combine(t, rows) =>
          Combine(t, rows);
        case Put(t) =>
          Put(t);
        case Leave(t) =>
          Leave(t);
        case Commit =>
          var r := Commit();
        case Collect =>
          Collect();
        case Finish(failed) =>
          Finish(failed);
        case Discard =>
          Discard();
      }
    }
  }

  /**
   Every interleaving: while tasks combine, the state counts them and each
   combiner is in one place; what is committed is exactly what was flushed
   since the key was new. Every event has its effect.
   */
  method Run<V(!new)>(k: KeyState<V>, events: seq<Event<V>>)
    requires k.Valid()
    modifies k
    ensures k.Valid()
    ensures k.state >= IDLE ==> k.state == IDLE + |k.active| && forall p: nat :: p < |k.channel| ==>
              OnePlace(k.channel, k.held, p)
    ensures k.state < IDLE ==> k.active == {}
    ensures k.Now() == Played(old(k.Now()), k.nparts, events)
    ensures k.state == COMMITTED ==> |k.written| == k.nparts && forall p: nat :: p < k.nparts ==>
              k.written[p] == Logged(k.log, p)
  {
    hide After, Handed, Holds;
    for i := 0 to |events|
      invariant k.Valid() && k.Now() == Played(old(k.Now()), k.nparts, events[..i])
    {
      assert events[..i + 1][..i] == events[..i];
      if k.Possible(events[i]) {
        k.Step(events[i]);
      } else {
        k.Skipped(events[i]);
      }
    }
    assert events[..|events|] == events;
    RunFacts(k);
  }

  lemma RunFacts<V(!new)>(k: KeyState<V>)
    requires k.Valid()
    ensures k.state >= IDLE ==> k.state == IDLE + |k.active| && forall p: nat :: p < |k.channel| ==>
              OnePlace(k.channel, k.held, p)
    ensures k.state == COMMITTED ==> |k.written| == k.nparts && forall p: nat :: p < k.nparts ==>
              k.written[p] == Logged(k.log, p)
  {
  }
}
