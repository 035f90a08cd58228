/** Tracked background goroutines and their join on close (spawnTracked and Close in daemon-go/peer/registry.go). */
module Goroutines {

  /** A tracked goroutine: admitted under the lock, then scheduled at some later point. */
  datatype TaskPhase = Admitted | Running

  datatype CloserPhase = AwaitingJoin | Joined

  datatype System = System(
    closed: bool,
    counter: int,
    tasks: map<nat, TaskPhase>,
    closers: map<nat, CloserPhase>)

  datatype Action =
    | Spawn(task: nat)
    | Begin(task: nat)
    | Finish(task: nat)
    | BeginClose(closer: nat)
    | WaitReturns(closer: nat)

  /** What spawnTracked does under its lock: once the gate is closed the request is dropped. */
  function Spawned(x: System, task: nat): System {
    if x.closed then x else x.(counter := x.counter + 1, tasks := x.tasks[task := Admitted])
  }

  /** A goroutine that ran to its end is off the count. */
  function Finished(x: System, task: nat): System {
    x.(tasks := x.tasks - {task}, counter := x.counter - 1)
  }

  /** What Close does under the lock, before it waits. */
  function CloseBegun(x: System, closer: nat): System {
    x.(closed := true, closers := x.closers[closer := AwaitingJoin])
  }

  ghost predicate Act(x: System, a: Action, y: System) {
    match a
    case Spawn(t) => t !in x.tasks && y == Spawned(x, t)
    case Begin(t) => t in x.tasks && x.tasks[t] == Admitted && y == x.(tasks := x.tasks[t := Running])
    case Finish(t) => t in x.tasks && x.tasks[t] == Running && y == Finished(x, t)
    case BeginClose(c) => c !in x.closers && y == CloseBegun(x, c)
    case WaitReturns(c) =>
      c in x.closers && x.closers[c] == AwaitingJoin && x.counter == 0 && y == x.(closers := x.closers[c := Joined])
  }

  ghost predicate SystemInv(x: System) {
    && x.counter == |x.tasks|
    && (x.closers != map[] ==> x.closed)
    && (forall c :: c in x.closers && x.closers[c] == Joined ==> x.tasks == map[])
  }

  ghost predicate SystemRun(states: seq<System>, actions: seq<Action>) {
    && |states| == |actions| + 1
    && states[0] == System(false, 0, map[], map[])
    && forall i :: 0 <= i < |actions| ==> Act(states[i], actions[i], states[i + 1])
  }

  lemma {:induction false} ReachableSystems(states: seq<System>, actions: seq<Action>, i: nat)
    requires SystemRun(states, actions) && i < |states|
    ensures SystemInv(states[i])
  {
    if i > 0 {
      ReachableSystems(states, actions, i - 1);
      var x, y := states[i - 1], states[i];
      assert Act(x, actions[i - 1], y);
      if actions[i - 1].Begin? {
        assert y.tasks.Keys == x.tasks.Keys;
      }
    }
  }

  /** In every interleaving the wait counter equals the number of tracked goroutines admitted and unfinished. */
  lemma CounterIsExact(states: seq<System>, actions: seq<Action>, i: nat)
    requires SystemRun(states, actions) && i < |states|
    ensures states[i].counter == |states[i].tasks|
  {
    ReachableSystems(states, actions, i);
  }

  /** Once some Close has joined, nothing tracked is running, nothing can start, and the counter is never added to
      again: no add follows the wait. */
  lemma {:induction false} JoinIsFinal(states: seq<System>, actions: seq<Action>, i: nat, j: nat, closer: nat)
    requires SystemRun(states, actions) && i <= j < |states|
    requires closer in states[i].closers && states[i].closers[closer] == Joined
    ensures closer in states[j].closers && states[j].closers[closer] == Joined
    ensures states[j].tasks == map[] && states[j].counter == 0 && states[j].closed
    ensures j < |actions| && actions[j].Spawn? ==> states[j + 1] == states[j]
  {
    ReachableSystems(states, actions, j);
    if j < |actions| {
      assert Act(states[j], actions[j], states[j + 1]);
    }
    if i < j {
      JoinIsFinal(states, actions, i, j - 1, closer);
      assert Act(states[j - 1], actions[j - 1], states[j]);
    }
  }

  /** The counter is only ever raised while the gate is open. */
  lemma AddsPrecedeClose(states: seq<System>, actions: seq<Action>, i: nat)
    requires SystemRun(states, actions) && i < |actions|
    requires states[i + 1].counter > states[i].counter
    ensures !states[i].closed && actions[i].Spawn?
  {
    assert Act(states[i], actions[i], states[i + 1]);
  }

  /** The gate and the wait group. The ghost machine knows which goroutines are behind the count. */
  class Tracker {
    var closed: bool
    var counter: nat
    ghost var system: System

    ghost predicate Valid()
      reads this
    {
      closed == system.closed && counter == system.counter && SystemInv(system)
    }

    constructor ()
      ensures Valid() && system == System(false, 0, map[], map[])
    {
      closed, counter, system := false, 0, System(false, 0, map[], map[]);
    }

    /** A goroutine starts running, or a wait returns: neither touches the gate or the count. */
    ghost method Advance(a: Action, y: System)
      requires Valid() && Act(system, a, y) && (a.Begin? || a.WaitReturns?)
      modifies this`system
      ensures Valid() && system == y
    {
      assert a.Begin? ==> y.tasks.Keys == system.tasks.Keys;
      system := y;
    }

    method SpawnTracked(ghost task: nat) returns (started: bool)
      requires Valid() && task !in system.tasks
      modifies this
      ensures Valid() && system == Spawned(old(system), task)
      ensures started <==> task in system.tasks
      ensures started <==> !old(closed)
    {
      system := Spawned(system, task);
      if closed {
        return false;
      }
      counter := counter + 1;
      return true;
    }

    /** Done on the wait group, when a goroutine ends. */
    method Done(ghost task: nat)
      requires Valid() && task in system.tasks && system.tasks[task] == Running
      modifies this
      ensures Valid() && system == Finished(old(system), task)
    {
      assert |system.tasks.Keys - {task}| == |system.tasks.Keys| - 1;
      assert (system.tasks - {task}).Keys == system.tasks.Keys - {task};
      system := Finished(system, task);
      counter := counter - 1;
    }

    method MarkClosed(ghost closer: nat)
      requires Valid() && closer !in system.closers
      modifies this
      ensures Valid() && system == CloseBegun(old(system), closer)
      ensures closed && counter == old(counter)
    {
      closed := true;
      system := CloseBegun(system, closer);
    }
  }
}
