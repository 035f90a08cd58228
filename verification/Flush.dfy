/** The deferred flush of mapping rows against concurrent registry operations
    (persistMappings and the row deletions in daemon-go/peer/registry.go). */
module Flush {
  import opened Peers
  import opened RegistrySpec
  import opened RegistrySteps
  import opened Runs

  /** The single flusher: between its snapshot and its commit it upserts the snapshot's rows one by one. */
  datatype Flusher = Idle | Writing(version: nat, rows: map<PeerId, Mapping>, written: set<PeerId>, ok: bool)

  /** `deleting` holds the ids dropped from memory whose stored row is still to be deleted;
      `used` is every id that ever had a row, which a mint never repeats. */
  datatype System = System(
    reg: State,
    stored: map<PeerId, Mapping>,
    flusher: Flusher,
    deleting: set<PeerId>,
    used: set<PeerId>)

  datatype Action =
    | Operate(op: Op)
    | BeginFlush
    | WriteRow(row: PeerId, succeeds: bool)
    | EndFlush
    | DeleteRow(dropped: PeerId, succeeds: bool)

  ghost predicate Start(x: System) {
    Init(x.reg) && x.stored == x.reg.mappings && x.flusher == Idle && x.deleting == {} && x.used == x.reg.mappings.Keys
  }

  /** The commit: clean only if every upsert succeeded and nothing was written since the snapshot. */
  function Committed(s: State, version: nat, ok: bool): State {
    if ok && s.version == version then s.(dirty := false) else s
  }

  ghost predicate Act(x: System, a: Action, y: System) {
    match a
    case Operate(op) =>
      && Step(x.reg, op, y.reg)
      && (op.Allocate? ==> op.env.freshId !in x.used)
      && y == x.(reg := y.reg,
                 deleting := x.deleting + (x.reg.mappings.Keys - y.reg.mappings.Keys),
                 used := x.used + y.reg.mappings.Keys)
    case BeginFlush =>
      x.flusher.Idle? &&
      y == if x.reg.dirty then x.(flusher := Writing(x.reg.version, x.reg.mappings, {}, true)) else x
    case WriteRow(id, succeeds) =>
      && x.flusher.Writing? && id in x.flusher.rows && id !in x.flusher.written
      && y == x.(stored := if succeeds then x.stored[id := x.flusher.rows[id]] else x.stored,
                 flusher := x.flusher.(written := x.flusher.written + {id}, ok := x.flusher.ok && succeeds))
    case EndFlush =>
      && x.flusher.Writing? && x.flusher.written == x.flusher.rows.Keys
      && y == x.(reg := Committed(x.reg, x.flusher.version, x.flusher.ok), flusher := Idle)
    case DeleteRow(id, succeeds) =>
      && id in x.deleting
      && y == x.(stored := if succeeds then x.stored - {id} else x.stored, deleting := x.deleting - {id})
  }

  ghost predicate Stored(stored: map<PeerId, Mapping>, id: PeerId, m: Mapping) {
    id in stored && stored[id] == m
  }

  /** What holds in every state of the combined system. */
  ghost predicate SystemInv(x: System) {
    && Inv(x.reg)
    && x.reg.mappings.Keys <= x.used && x.deleting <= x.used
    && x.deleting !! x.reg.mappings.Keys
    && (!x.reg.dirty ==> x.flusher.Idle? && forall id :: id in x.reg.mappings ==> Stored(x.stored, id, x.reg.mappings[id]))
    && (x.flusher.Writing? ==>
          && x.flusher.version <= x.reg.version
          && x.flusher.rows.Keys <= x.used
          && (x.flusher.version == x.reg.version ==>
                forall id :: id in x.reg.mappings ==> Stored(x.flusher.rows, id, x.reg.mappings[id]))
          && (x.flusher.ok ==>
                forall id :: id in x.reg.mappings && id in x.flusher.written && id in x.flusher.rows ==>
                  Stored(x.stored, id, x.flusher.rows[id])))
  }

  lemma OperationKeepsSystem(x: System, op: Op, y: System)
    requires SystemInv(x) && Act(x, Operate(op), y)
    ensures SystemInv(y)
  {
    hide Step, Inv;
    StepKeeps(x.reg, op, y.reg);
    forall id | id in y.reg.mappings && id !in x.reg.mappings ensures id !in x.deleting {
      assert id !in x.used;
    }
  }

  lemma ActionKeepsSystem(x: System, a: Action, y: System)
    requires SystemInv(x) && Act(x, a, y)
    ensures SystemInv(y)
  {
    if a.Operate? {
      OperationKeepsSystem(x, a.op, y);
    } else {
      hide Step, Backed;
    }
  }

  ghost predicate SystemRun(states: seq<System>, actions: seq<Action>) {
    && |states| == |actions| + 1
    && Start(states[0])
    && forall i :: 0 <= i < |actions| ==> Act(states[i], actions[i], states[i + 1])
  }

  lemma {:induction false} ReachableSystems(states: seq<System>, actions: seq<Action>, i: nat)
    requires SystemRun(states, actions) && i < |states|
    ensures SystemInv(states[i])
  {
    hide Act, Backed;
    if i > 0 {
      ReachableSystems(states, actions, i - 1);
      ActionKeepsSystem(states[i - 1], actions[i - 1], states[i]);
    }
  }

  /** Whenever the table reports itself clean, every row in memory equals its stored row: no write is forgotten,
      not even one that lands while a flush is under way. */
  lemma CleanMeansStored(states: seq<System>, actions: seq<Action>, i: nat, id: PeerId)
    requires SystemRun(states, actions) && i < |states|
    requires !states[i].reg.dirty && id in states[i].reg.mappings
    ensures id in states[i].stored && states[i].stored[id] == states[i].reg.mappings[id]
  {
    hide Act, Inv;
    ReachableSystems(states, actions, i);
  }

  // ---------------------------------------------------------------------------
  // When a flush cleans
  // ---------------------------------------------------------------------------

  /** The table was written: an operation moved its version. */
  predicate WroteRows(x: System, a: Action, y: System) {
    a.Operate? && y.reg.version != x.reg.version
  }

  predicate FailedUpsert(a: Action) {
    a.WriteRow? && !a.succeeds
  }

  /** States i + 1 to j belong to the flush that began at i. */
  ghost predicate OneFlush(states: seq<System>, actions: seq<Action>, i: nat, j: nat) {
    && i < j < |actions| && j < |states|
    && actions[i] == BeginFlush && states[i].reg.dirty
    && forall k :: i < k < j ==> actions[k] != EndFlush
  }

  lemma FlushBegins(x: System, y: System)
    requires Act(x, BeginFlush, y) && x.reg.dirty
    ensures y.flusher.Writing? && y.flusher.version == x.reg.version == y.reg.version && y.flusher.ok
  {
  }

  lemma FlushGoesOn(x: System, a: Action, y: System)
    requires SystemInv(x) && Act(x, a, y) && x.flusher.Writing? && a != EndFlush
    ensures y.flusher.Writing? && y.flusher.version == x.flusher.version
    ensures y.flusher.ok <==> x.flusher.ok && !FailedUpsert(a)
    ensures y.reg.version >= x.reg.version
    ensures WroteRows(x, a, y) <==> y.reg.version != x.reg.version
  {
    hide Step, Inv;
    if a.Operate? {
      StepKeeps(x.reg, a.op, y.reg);
    }
  }

  lemma {:induction false} FlushTracksHistory(states: seq<System>, actions: seq<Action>, i: nat, j: nat)
    requires SystemRun(states, actions) && OneFlush(states, actions, i, j)
    ensures states[j].flusher.Writing? && states[j].flusher.version == states[i].reg.version
    ensures states[j].flusher.ok <==> forall k :: i < k < j ==> !FailedUpsert(actions[k])
    ensures states[j].reg.version >= states[i].reg.version
    ensures states[j].reg.version == states[i].reg.version <==>
              forall k :: i < k < j ==> !WroteRows(states[k], actions[k], states[k + 1])
  {
    hide Act, WroteRows, FailedUpsert, SystemInv, Start;
    if j == i + 1 {
      FlushBegins(states[i], states[i + 1]);
    } else {
      assert OneFlush(states, actions, i, j - 1);
      FlushTracksHistory(states, actions, i, j - 1);
      ReachableSystems(states, actions, j - 1);
      FlushGoesOn(states[j - 1], actions[j - 1], states[j]);
    }
  }

  /** A flush leaves the table clean exactly when all its upserts succeeded and nothing was written meanwhile. */
  lemma FlushCleansExactlyWhen(states: seq<System>, actions: seq<Action>, i: nat, j: nat)
    requires SystemRun(states, actions) && OneFlush(states, actions, i, j)
    requires actions[j] == EndFlush
    ensures !states[j + 1].reg.dirty <==>
              forall k :: i < k < j ==> !FailedUpsert(actions[k]) && !WroteRows(states[k], actions[k], states[k + 1])
  {
    hide Step, Inv, Init;
    FlushTracksHistory(states, actions, i, j);
    ReachableSystems(states, actions, j);
    assert Act(states[j], actions[j], states[j + 1]);
  }

  // ---------------------------------------------------------------------------
  // Rows that outlive their record
  // ---------------------------------------------------------------------------

  /** A stored row without a row in memory, which nothing is left to delete: a restart would bring it back. */
  predicate Orphan(x: System, id: PeerId) {
    id in x.stored && id !in x.reg.mappings && id !in x.deleting
  }

  /** The two ways in: the deletion fails, or an upsert of the flush under way lands after the deletion. */
  predicate OrphansRow(x: System, a: Action, id: PeerId) {
    || (a == DeleteRow(id, false) && id in x.stored)
    || (a == WriteRow(id, true) && id !in x.reg.mappings && id !in x.deleting)
  }

  /** An id that once had a row and has none now never gets one again. */
  lemma GoneStaysGone(x: System, a: Action, y: System, id: PeerId)
    requires SystemInv(x) && Act(x, a, y)
    requires id in x.used && id !in x.reg.mappings
    ensures id in y.used && id !in y.reg.mappings
    ensures id in y.deleting ==> id in x.deleting
  {
    hide Step, Inv;
    if a.Operate? {
      StepKeeps(x.reg, a.op, y.reg);
    }
  }

  /** Stored rows are of used ids. */
  ghost predicate StoredIsUsed(x: System) {
    x.stored.Keys <= x.used
  }

  lemma StoredStaysUsed(x: System, a: Action, y: System)
    requires SystemInv(x) && Act(x, a, y) && StoredIsUsed(x)
    ensures StoredIsUsed(y)
  {
    hide Step, Inv;
  }

  lemma {:induction false} ReachableStoredIsUsed(states: seq<System>, actions: seq<Action>, i: nat)
    requires SystemRun(states, actions) && i < |states|
    ensures StoredIsUsed(states[i])
  {
    hide Act, Inv, Init;
    if i > 0 {
      ReachableStoredIsUsed(states, actions, i - 1);
      ReachableSystems(states, actions, i - 1);
      StoredStaysUsed(states[i - 1], actions[i - 1], states[i]);
    }
  }

  /** One step orphans a row exactly in the two ways. */
  lemma StepOrphansExactlyWhen(x: System, a: Action, y: System, id: PeerId)
    requires SystemInv(x) && StoredIsUsed(x) && Act(x, a, y)
    ensures Orphan(y, id) <==> Orphan(x, id) || OrphansRow(x, a, id)
  {
    hide Step, Inv;
    if id in x.used && id !in x.reg.mappings {
      GoneStaysGone(x, a, y, id);
    }
  }

  /** In every reachable state a row is orphaned if and only if some earlier deletion of it failed or some earlier
      upsert landed after its deletion; otherwise what is stored is in memory or still to be deleted. */
  lemma {:induction false} OrphanedExactlyWhen(states: seq<System>, actions: seq<Action>, j: nat, id: PeerId)
    requires SystemRun(states, actions) && j < |states|
    ensures Orphan(states[j], id) <==> exists k :: 0 <= k < j && OrphansRow(states[k], actions[k], id)
  {
    hide Act, SystemInv, OrphansRow;
    if j > 0 {
      OrphanedExactlyWhen(states, actions, j - 1, id);
      ReachableSystems(states, actions, j - 1);
      ReachableStoredIsUsed(states, actions, j - 1);
      StepOrphansExactlyWhen(states[j - 1], actions[j - 1], states[j], id);
    }
  }

  /** Whether the flush under way still holds an upsert of this row. */
  predicate StillToWrite(x: System, id: PeerId) {
    x.flusher.Writing? && id in x.flusher.rows && id !in x.flusher.written
  }

  /** After the deletion, the row comes back by an upsert or not at all, and by one only that the flush already held. */
  lemma {:induction false} AfterDeletion(states: seq<System>, actions: seq<Action>, i: nat, j: nat, id: PeerId)
    requires SystemRun(states, actions) && i < j < |states|
    requires actions[i] == DeleteRow(id, true)
    ensures id in states[j].used && id !in states[j].reg.mappings && id !in states[j].deleting
    ensures id in states[j].stored <==> exists k :: i < k < j && actions[k] == WriteRow(id, true)
    ensures !StillToWrite(states[i], id) ==> !StillToWrite(states[j], id) && id !in states[j].stored
  {
    hide Step, Inv, Init;
    ReachableSystems(states, actions, j - 1);
    assert Act(states[j - 1], actions[j - 1], states[j]);
    if i < j - 1 {
      AfterDeletion(states, actions, i, j - 1, id);
      GoneStaysGone(states[j - 1], actions[j - 1], states[j], id);
    }
  }

  /** A successful deletion sticks if and only if no upsert of the row succeeds later; it sticks for certain when no
      flush is under way, or the flush does not hold the row, or has already dealt with it. */
  lemma DeletionSticksExactlyWhen(states: seq<System>, actions: seq<Action>, i: nat, j: nat, id: PeerId)
    requires SystemRun(states, actions) && i < j < |states|
    requires actions[i] == DeleteRow(id, true)
    ensures id in states[j].stored <==> exists k :: i < k < j && actions[k] == WriteRow(id, true)
    ensures states[i].flusher.Idle? || id !in states[i].flusher.rows || id in states[i].flusher.written ==>
              id !in states[j].stored
  {
    hide Act, Start;
    AfterDeletion(states, actions, i, j, id);
  }

  /** An instance: a row deleted while a flush is under way is written back, and nothing is left that would delete it
      again. */
  lemma FlushResurrectsDeletedRow(x: System, id: PeerId) returns (trace: seq<System>, actions: seq<Action>)
    requires SystemInv(x) && x.flusher.Idle? && x.reg.dirty && id in x.reg.peers
    ensures actions == [BeginFlush, Operate(Unregister(id)), DeleteRow(id, true), WriteRow(id, true)]
    ensures |trace| == 5 && trace[0] == x
    ensures forall i :: 0 <= i < 4 ==> Act(trace[i], actions[i], trace[i + 1])
    ensures Orphan(trace[4], id)
  {
    assert Backed(id, x.reg.peers[id], x.reg.mappings);
    actions := [BeginFlush, Operate(Unregister(id)), DeleteRow(id, true), WriteRow(id, true)];
    var a := x.(flusher := Writing(x.reg.version, x.reg.mappings, {}, true));
    var reg := PeerRemoved(x.reg, id);
    var b := a.(reg := reg, deleting := a.deleting + (a.reg.mappings.Keys - reg.mappings.Keys),
                used := a.used + reg.mappings.Keys);
    var c := b.(stored := b.stored - {id}, deleting := b.deleting - {id});
    var d := c.(stored := c.stored[id := x.reg.mappings[id]],
                flusher := c.flusher.(written := c.flusher.written + {id}));
    trace := [x, a, b, c, d];
    assert Act(x, BeginFlush, a) && Act(a, Operate(Unregister(id)), b);
    assert Act(b, DeleteRow(id, true), c) && Act(c, WriteRow(id, true), d);
  }
}
