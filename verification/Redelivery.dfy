/** Redelivery of stashed replies by concurrently scheduled workers (redeliverPendingReplies and deliverOneStashed in
    daemon-go/peer/reconcile.go, claimRedelivery in daemon-go/peer/registry.go). */
module Redelivery {
  import opened Peers

  /** The identity tuple of a registered peer, its path normalised. */
  datatype Identity = Identity(name: string, circle: string, backend: string, path: string, machine: string)

  predicate Complete(t: Identity) {
    t.name != "" && t.circle != "" && t.backend != "" && t.path != "" && t.machine != "" && t.machine != "unknown"
  }

  /** An ask in the tracker. A stash carries a stamp, so that a later stash of the same ask can be told apart. */
  datatype Ask = Ask(from: PeerId, identity: Option<Identity>, pending: Option<nat>, closed: bool)

  /** One entry of a worker's snapshot: the ask and the stash it carried then. */
  datatype Job = Job(cid: string, stamp: nat)

  /** What pass two read under the registry lock. */
  datatype Gate = Gate(tuple: Identity, registered: map<PeerId, Identity>)

  /** A worker delivers pass one (no gate) and then, if the gate opens, pass two. */
  datatype Phase =
    | Scheduled
    | Holding
    | Delivering(queue: seq<Job>, gate: Option<Gate>)
    | Marking(job: Job, queue: seq<Job>, gate: Option<Gate>)
    | Gating
    | Selecting(through: Gate)
    | Releasing
    | Finished

  datatype Worker = Worker(asker: PeerId, phase: Phase)

  /** A successful notification. */
  datatype Sent = Sent(cid: string, stamp: nat, to: PeerId)

  datatype System = System(
    asks: map<string, Ask>,
    registered: map<PeerId, Identity>,
    active: set<PeerId>,
    workers: map<nat, Worker>,
    sent: seq<Sent>,
    stamps: nat)

  datatype Action =
    | Schedule(w: nat, asker: PeerId)
    | Claim(w: nat)
    | SnapshotOwn(w: nat, jobs: seq<Job>)
    | Notify(w: nat, succeeds: bool)
    | Mark(w: nat)
    | EndPass(w: nat)
    | Look(w: nat)
    | SnapshotOrphans(w: nat, jobs: seq<Job>)
    | Release(w: nat)
    | Elsewhere(asks: map<string, Ask>, stamps: nat, registered: map<PeerId, Identity>)

  predicate Pending(asks: map<string, Ask>, cid: string, stamp: nat) {
    cid in asks && asks[cid].pending == Some(stamp)
  }

  predicate Holds(p: Phase) {
    !p.Scheduled? && !p.Finished?
  }

  function Queue(p: Phase): seq<Job> {
    if p.Delivering? || p.Marking? then p.queue else []
  }

  /** `jobs` lists, in some order and once each, exactly the wanted asks. */
  ghost predicate Lists(asks: map<string, Ask>, wanted: set<string>, jobs: seq<Job>)
    requires wanted <= asks.Keys
  {
    && (forall c :: c in wanted ==> asks[c].pending.Some? && Job(c, asks[c].pending.value) in jobs)
    && (forall j :: j in jobs ==> j.cid in wanted && asks[j.cid].pending == Some(j.stamp))
    && (forall i, k :: 0 <= i < k < |jobs| ==> jobs[i].cid != jobs[k].cid)
  }

  /** Asks of this asker that carry a stash (TakePendingRepliesForAsker). */
  function OwnStashes(asks: map<string, Ask>, asker: PeerId): set<string> {
    set c | c in asks && asks[c].from == asker && asks[c].pending.Some?
  }

  /** Stashes with this tuple whose original asker is gone (TakeOrphanPendingRepliesMatching). */
  function OrphanStashes(asks: map<string, Ask>, g: Gate): set<string> {
    set c | c in asks && asks[c].pending.Some? && asks[c].identity == Some(g.tuple) && asks[c].from !in g.registered
  }

  /** The uniqueness gate: a complete tuple that exactly one registered peer, the asker itself, carries. */
  predicate Opens(registered: map<PeerId, Identity>, asker: PeerId) {
    && asker in registered && Complete(registered[asker])
    && forall o :: o in registered && registered[o] == registered[asker] ==> o == asker
  }

  /** MarkPendingReplyDelivered: clear whatever stash the ask carries, close it, rebind it in pass two. */
  function Marked(asks: map<string, Ask>, cid: string, rebind: bool, asker: PeerId): map<string, Ask> {
    if cid in asks && asks[cid].pending.Some?
    then asks[cid := asks[cid].(from := if rebind then asker else asks[cid].from, pending := None, closed := true)]
    else asks
  }

  function At(x: System, w: nat, p: Phase): System
    requires w in x.workers
  {
    x.(workers := x.workers[w := x.workers[w].(phase := p)])
  }

  /** The worker takes its asker's slot, or ends at once when another has it. */
  function Claimed(x: System, w: nat): System
    requires w in x.workers
  {
    var asker := x.workers[w].asker;
    if asker in x.active then At(x, w, Finished) else At(x, w, Holding).(active := x.active + {asker})
  }

  /** The worker gives the slot back and ends. */
  function Released(x: System, w: nat): System
    requires w in x.workers
  {
    At(x, w, Finished).(active := x.active - {x.workers[w].asker})
  }

  /** What the rest of the program does to the tracker: it opens, closes, rebinds and drops asks and clears or replaces
      stashes at will; a new stash takes a stamp never used before, and an ask that keeps its stash keeps its asker
      and the identity recorded with it, as the tracker clears the stash whenever it rebinds. */
  ghost predicate NewStashesAreStamped(x: System, asks: map<string, Ask>, stamps: nat) {
    && x.stamps <= stamps
    && forall c :: c in asks && asks[c].pending.Some? ==>
         || (&& Pending(x.asks, c, asks[c].pending.value)
             && asks[c].from == x.asks[c].from && asks[c].identity == x.asks[c].identity)
         || x.stamps <= asks[c].pending.value < stamps
  }

  ghost predicate Act(x: System, a: Action, y: System) {
    match a
    case Schedule(w, asker) => w !in x.workers && y == x.(workers := x.workers[w := Worker(asker, Scheduled)])
    case Claim(w) => w in x.workers && x.workers[w].phase.Scheduled? && y == Claimed(x, w)
    case SnapshotOwn(w, jobs) =>
      && w in x.workers && x.workers[w].phase.Holding?
      && Lists(x.asks, OwnStashes(x.asks, x.workers[w].asker), jobs)
      && y == At(x, w, Delivering(jobs, None))
    case Notify(w, succeeds) =>
      w in x.workers && x.workers[w].phase.Delivering? && x.workers[w].phase.queue != [] &&
      var q := x.workers[w].phase.queue;
      y == if succeeds
           then At(x, w, Marking(q[0], q[1..], x.workers[w].phase.gate)).(
                  sent := x.sent + [Sent(q[0].cid, q[0].stamp, x.workers[w].asker)])
           else At(x, w, Delivering(q[1..], x.workers[w].phase.gate))
    case Mark(w) =>
      w in x.workers && x.workers[w].phase.Marking? &&
      var p := x.workers[w].phase;
      y == At(x, w, Delivering(p.queue, p.gate)).(asks := Marked(x.asks, p.job.cid, p.gate.Some?, x.workers[w].asker))
    case EndPass(w) =>
      && w in x.workers && x.workers[w].phase.Delivering? && x.workers[w].phase.queue == []
      && y == At(x, w, if x.workers[w].phase.gate.None? then Gating else Releasing)
    case Look(w) =>
      w in x.workers && x.workers[w].phase.Gating? &&
      var asker := x.workers[w].asker;
      y == At(x, w, if Opens(x.registered, asker) then Selecting(Gate(x.registered[asker], x.registered)) else Releasing)
    case SnapshotOrphans(w, jobs) =>
      && w in x.workers && x.workers[w].phase.Selecting?
      && Lists(x.asks, OrphanStashes(x.asks, x.workers[w].phase.through), jobs)
      && y == At(x, w, Delivering(jobs, Some(x.workers[w].phase.through)))
    case Release(w) =>
      w in x.workers && x.workers[w].phase.Releasing? && y == Released(x, w)
    case Elsewhere(asks, stamps, registered) =>
      NewStashesAreStamped(x, asks, stamps) && y == x.(asks := asks, stamps := stamps, registered := registered)
  }

  ghost predicate Start(x: System) {
    && x.active == {} && x.workers == map[] && x.sent == []
    && forall c :: c in x.asks && x.asks[c].pending.Some? ==> x.asks[c].pending.value < x.stamps
  }

  // ---------------------------------------------------------------------------
  // Invariant
  // ---------------------------------------------------------------------------

  /** The worker is between notifying this stash and marking it. */
  predicate IsMarking(p: Phase, cid: string, stamp: nat) {
    p.Marking? && p.job.cid == cid && p.job.stamp == stamp
  }

  /** A worker's queue: distinct asks, known stamps, and nothing this asker was already sent. */
  ghost predicate QueueOk(x: System, w: Worker) {
    && (forall i, k :: 0 <= i < k < |Queue(w.phase)| ==> Queue(w.phase)[i].cid != Queue(w.phase)[k].cid)
    && (forall j :: j in Queue(w.phase) ==> j.stamp < x.stamps && Sent(j.cid, j.stamp, w.asker) !in x.sent)
    && (w.phase.Marking? ==>
          && w.phase.job.stamp < x.stamps
          && Sent(w.phase.job.cid, w.phase.job.stamp, w.asker) in x.sent
          && forall j :: j in w.phase.queue ==> j.cid != w.phase.job.cid)
  }

  /** What was sent is known, and still pending only while the asker's worker is about to mark it. */
  ghost predicate SentOk(x: System, s: Sent) {
    && s.stamp < x.stamps
    && (Pending(x.asks, s.cid, s.stamp) ==>
          exists w :: w in x.workers && x.workers[w].asker == s.to && IsMarking(x.workers[w].phase, s.cid, s.stamp))
  }

  /** The slot is held by whoever is working for an asker, and by one worker at most. */
  ghost predicate SingleFlight(x: System) {
    && (forall w :: w in x.workers && Holds(x.workers[w].phase) ==> x.workers[w].asker in x.active)
    && (forall v, w ::
          (v in x.workers && w in x.workers && Holds(x.workers[v].phase) && Holds(x.workers[w].phase)
           && x.workers[v].asker == x.workers[w].asker) ==> v == w)
  }

  ghost predicate SentOnce(sent: seq<Sent>) {
    forall i, k :: 0 <= i < k < |sent| ==> sent[i] != sent[k]
  }

  ghost predicate SystemInv(x: System) {
    && SingleFlight(x)
    && SentOnce(x.sent)
    && (forall c :: c in x.asks && x.asks[c].pending.Some? ==> x.asks[c].pending.value < x.stamps)
    && (forall s :: s in x.sent ==> SentOk(x, s))
    && (forall w :: w in x.workers ==> QueueOk(x, x.workers[w]))
  }

  // ---------------------------------------------------------------------------
  // Every step keeps it
  // ---------------------------------------------------------------------------

  /** Worker w moves to a phase that carries no job but jobs it already had. */
  lemma PhaseStepKeeps(x: System, w: nat, p: Phase, y: System)
    requires SystemInv(x) && w in x.workers && Holds(x.workers[w].phase) && Holds(p)
    requires y == At(x, w, p)
    requires !x.workers[w].phase.Marking? && !p.Marking?
    requires Queue(p) == [] || (Queue(x.workers[w].phase) != [] && Queue(p) == Queue(x.workers[w].phase)[1..])
    ensures SystemInv(y)
  {
    forall s | s in y.sent ensures SentOk(y, s) {
      SentStaysOk(x, s, w, y);
    }
    forall v | v in y.workers ensures QueueOk(y, y.workers[v]) {
      assert QueueOk(x, x.workers[v]);
    }
  }

  /** A step of a worker that was not marking leaves every earlier notification accounted for. */
  lemma SentStaysOk(x: System, s: Sent, w: nat, y: System)
    requires SystemInv(x) && s in x.sent
    requires w in x.workers ==> !x.workers[w].phase.Marking?
    requires y.asks == x.asks && y.stamps == x.stamps
    requires forall v :: v in x.workers && v != w ==> v in y.workers && y.workers[v] == x.workers[v]
    ensures SentOk(y, s)
  {
    assert SentOk(x, s);
    if Pending(x.asks, s.cid, s.stamp) {
      var v :| v in x.workers && x.workers[v].asker == s.to && IsMarking(x.workers[v].phase, s.cid, s.stamp);
      assert v in y.workers && y.workers[v] == x.workers[v];
    }
  }

  /** A worker is scheduled, or one that holds no slot ends: no job moves. */
  lemma IdleStepKeeps(x: System, w: nat, worker: Worker, y: System)
    requires SystemInv(x) && !Holds(worker.phase)
    requires w in x.workers ==> worker.asker == x.workers[w].asker && !x.workers[w].phase.Marking?
    requires y == x.(workers := x.workers[w := worker], active := y.active)
    requires y.active == x.active
             || (w in x.workers && Holds(x.workers[w].phase) && y.active == x.active - {worker.asker})
    ensures SystemInv(y)
  {
    forall s | s in y.sent ensures SentOk(y, s) {
      SentStaysOk(x, s, w, y);
    }
    forall v | v in y.workers ensures QueueOk(y, y.workers[v]) {
      if v in x.workers {
        assert QueueOk(x, x.workers[v]);
      }
    }
  }

  /** A worker wins the slot, which nobody holds. */
  lemma WinKeeps(x: System, w: nat, y: System)
    requires SystemInv(x) && w in x.workers && x.workers[w].phase.Scheduled? && x.workers[w].asker !in x.active
    requires y == At(x, w, Holding).(active := x.active + {x.workers[w].asker})
    ensures SystemInv(y)
  {
    forall s | s in y.sent ensures SentOk(y, s) {
      SentStaysOk(x, s, w, y);
    }
    forall v | v in y.workers ensures QueueOk(y, y.workers[v]) {
      assert QueueOk(x, x.workers[v]);
    }
  }

  /** A snapshot holds nothing this asker was already sent: what was sent and is still pending is being marked, and
      only by the one worker that holds the slot. */
  lemma SnapshotIsUnsent(x: System, w: nat, wanted: set<string>, jobs: seq<Job>, j: Job)
    requires SystemInv(x) && w in x.workers && Holds(x.workers[w].phase) && !x.workers[w].phase.Marking?
    requires wanted <= x.asks.Keys && Lists(x.asks, wanted, jobs) && j in jobs
    ensures j.stamp < x.stamps && Sent(j.cid, j.stamp, x.workers[w].asker) !in x.sent
  {
    var s := Sent(j.cid, j.stamp, x.workers[w].asker);
    assert Pending(x.asks, j.cid, j.stamp);
    if s in x.sent {
      assert false;
    }
  }

  lemma SnapshotKeeps(x: System, w: nat, wanted: set<string>, jobs: seq<Job>, gate: Option<Gate>, y: System)
    requires SystemInv(x) && w in x.workers && Holds(x.workers[w].phase) && !x.workers[w].phase.Marking?
    requires wanted <= x.asks.Keys && Lists(x.asks, wanted, jobs)
    requires y == At(x, w, Delivering(jobs, gate))
    ensures SystemInv(y)
  {
    forall s | s in y.sent ensures SentOk(y, s) {
      SentStaysOk(x, s, w, y);
    }
    forall v | v in y.workers ensures QueueOk(y, y.workers[v]) {
      assert QueueOk(x, x.workers[v]);
      forall j | v == w && j in jobs ensures j.stamp < x.stamps && Sent(j.cid, j.stamp, x.workers[w].asker) !in x.sent {
        SnapshotIsUnsent(x, w, wanted, jobs, j);
      }
    }
  }

  /** The first job of a queue goes out: nobody else works for the asker, and the rest of the queue is other asks. */
  lemma NotifyKeepsQueues(x: System, w: nat, y: System, v: nat)
    requires SystemInv(x) && Act(x, Notify(w, true), y) && v in y.workers
    ensures QueueOk(y, y.workers[v])
  {
    assert QueueOk(x, x.workers[w]) && QueueOk(x, x.workers[v]);
    assert x.workers[w].phase.queue[0] in Queue(x.workers[w].phase);
    if v != w && Holds(x.workers[v].phase) {
      assert x.workers[v].asker != x.workers[w].asker;
    }
  }

  lemma NotifyKeepsSent(x: System, w: nat, y: System, s: Sent)
    requires SystemInv(x) && Act(x, Notify(w, true), y) && s in y.sent
    ensures SentOk(y, s)
  {
    assert QueueOk(x, x.workers[w]) && x.workers[w].phase.queue[0] in Queue(x.workers[w].phase);
    if s in x.sent {
      SentStaysOk(x, s, w, y);
    } else {
      assert w in y.workers && y.workers[w].asker == s.to && IsMarking(y.workers[w].phase, s.cid, s.stamp);
    }
  }

  lemma NotifyKeeps(x: System, w: nat, y: System)
    requires SystemInv(x) && Act(x, Notify(w, true), y)
    ensures SystemInv(y)
  {
    hide QueueOk, SentOk;
    forall s | s in y.sent ensures SentOk(y, s) {
      NotifyKeepsSent(x, w, y, s);
    }
    forall v | v in y.workers ensures QueueOk(y, y.workers[v]) {
      NotifyKeepsQueues(x, w, y, v);
    }
    NotifyIsNew(x, w, y);
  }

  lemma NotifyIsNew(x: System, w: nat, y: System)
    requires SystemInv(x) && Act(x, Notify(w, true), y)
    ensures SentOnce(y.sent)
  {
    assert QueueOk(x, x.workers[w]) && x.workers[w].phase.queue[0] in Queue(x.workers[w].phase);
  }

  lemma MarkKeeps(x: System, w: nat, y: System)
    requires SystemInv(x) && Act(x, Mark(w), y)
    ensures SystemInv(y)
  {
    var job := x.workers[w].phase.job;
    forall s | s in y.sent ensures SentOk(y, s) {
      assert SentOk(x, s);
      if Pending(y.asks, s.cid, s.stamp) {
        assert s.cid != job.cid && Pending(x.asks, s.cid, s.stamp);
        var v :| v in x.workers && x.workers[v].asker == s.to && IsMarking(x.workers[v].phase, s.cid, s.stamp);
        assert v in y.workers && y.workers[v] == x.workers[v];
      }
    }
    forall v | v in y.workers ensures QueueOk(y, y.workers[v]) {
      assert QueueOk(x, x.workers[v]);
    }
  }

  lemma ElsewhereKeeps(x: System, asks: map<string, Ask>, stamps: nat, registered: map<PeerId, Identity>, y: System)
    requires SystemInv(x) && Act(x, Elsewhere(asks, stamps, registered), y)
    ensures SystemInv(y)
  {
    forall s | s in y.sent ensures SentOk(y, s) {
      assert SentOk(x, s);
      if Pending(y.asks, s.cid, s.stamp) {
        assert Pending(x.asks, s.cid, s.stamp);
        var v :| v in x.workers && x.workers[v].asker == s.to && IsMarking(x.workers[v].phase, s.cid, s.stamp);
        assert v in y.workers && y.workers[v] == x.workers[v];
      }
    }
    forall v | v in y.workers ensures QueueOk(y, y.workers[v]) {
      assert QueueOk(x, x.workers[v]);
    }
  }

  lemma ActionKeepsSystem(x: System, a: Action, y: System)
    requires SystemInv(x) && Act(x, a, y)
    ensures SystemInv(y)
  {
    hide SystemInv, Lists, Opens, NewStashesAreStamped, OwnStashes, OrphanStashes;
    match a
    case Schedule(w, _) => IdleStepKeeps(x, w, y.workers[w], y);
    case Claim(w) =>
      if x.workers[w].asker in x.active {
        IdleStepKeeps(x, w, y.workers[w], y);
      } else {
        WinKeeps(x, w, y);
      }
    case Release(w) => IdleStepKeeps(x, w, y.workers[w], y);
    case SnapshotOwn(w, jobs) =>
      OwnAreKnown(x, x.workers[w].asker);
      SnapshotKeeps(x, w, OwnStashes(x.asks, x.workers[w].asker), jobs, None, y);
    case SnapshotOrphans(w, jobs) =>
      OrphansAreKnown(x, x.workers[w].phase.through);
      SnapshotKeeps(x, w, OrphanStashes(x.asks, x.workers[w].phase.through), jobs, Some(x.workers[w].phase.through), y);
    case Notify(w, succeeds) =>
      if succeeds {
        NotifyKeeps(x, w, y);
      } else {
        PhaseStepKeeps(x, w, y.workers[w].phase, y);
      }
    case Mark(w) => MarkKeeps(x, w, y);
    case EndPass(w) => PhaseStepKeeps(x, w, y.workers[w].phase, y);
    case Look(w) => PhaseStepKeeps(x, w, y.workers[w].phase, y);
    case Elsewhere(asks, stamps, registered) => ElsewhereKeeps(x, asks, stamps, registered, y);
  }

  lemma OwnAreKnown(x: System, asker: PeerId)
    ensures OwnStashes(x.asks, asker) <= x.asks.Keys
  {
  }

  lemma OrphansAreKnown(x: System, g: Gate)
    ensures OrphanStashes(x.asks, g) <= x.asks.Keys
  {
  }

  ghost predicate SystemRun(states: seq<System>, actions: seq<Action>) {
    && |states| == |actions| + 1
    && Start(states[0])
    && forall i :: 0 <= i < |actions| ==> Act(states[i], actions[i], states[i + 1])
  }

  lemma {:induction false} ReachableSystems(states: seq<System>, actions: seq<Action>, i: nat)
    requires SystemRun(states, actions) && i < |states|
    ensures SystemInv(states[i])
  {
    hide Act;
    if i > 0 {
      ReachableSystems(states, actions, i - 1);
      ActionKeepsSystem(states[i - 1], actions[i - 1], states[i]);
    }
  }

  // ---------------------------------------------------------------------------
  // What the invariant gives
  // ---------------------------------------------------------------------------

  /** Under any interleaving of workers, any failures and any use of the tracker elsewhere, no stash is successfully
      notified to the same asker twice, whichever pass or worker delivered it. */
  lemma NoStashIsSentTwice(states: seq<System>, actions: seq<Action>, n: nat, i: nat, k: nat)
    requires SystemRun(states, actions) && n < |states|
    requires i < k < |states[n].sent|
    ensures states[n].sent[i] != states[n].sent[k]
  {
    hide Act;
    ReachableSystems(states, actions, n);
  }

  /** Marking clears a stash that its asker was sent, except exactly when the ask was stashed anew since the worker's
      snapshot: then the newer stash is dropped unsent. */
  lemma MarkClearsSentExactlyWhen(states: seq<System>, actions: seq<Action>, i: nat, w: nat, stamp: nat)
    requires SystemRun(states, actions) && i < |actions| && actions[i] == Mark(w)
    requires w in states[i].workers && states[i].workers[w].phase.Marking?
    requires Pending(states[i].asks, states[i].workers[w].phase.job.cid, stamp)
    ensures
      var worker := states[i].workers[w];
      && !Pending(states[i + 1].asks, worker.phase.job.cid, stamp)
      && (Sent(worker.phase.job.cid, stamp, worker.asker) in states[i].sent <==> stamp == worker.phase.job.stamp)
  {
    ReachableSystems(states, actions, i);
    var x := states[i];
    assert Act(x, actions[i], states[i + 1]);
    assert QueueOk(x, x.workers[w]);
    var s := Sent(x.workers[w].phase.job.cid, stamp, x.workers[w].asker);
    if s in x.sent {
      assert SentOk(x, s);
      var v :| v in x.workers && x.workers[v].asker == s.to && IsMarking(x.workers[v].phase, s.cid, s.stamp);
      assert v == w;
    }
  }

  /** Redelivery takes a stash away only by a mark, and a mark follows a successful notification of that ask to the
      worker's asker: a failed one leaves the stash as found. */
  lemma ClearingFollowsSuccess(states: seq<System>, actions: seq<Action>, i: nat, cid: string, stamp: nat)
    requires SystemRun(states, actions) && i < |actions| && !actions[i].Elsewhere?
    requires Pending(states[i].asks, cid, stamp) && !Pending(states[i + 1].asks, cid, stamp)
    ensures actions[i].Mark? && actions[i].w in states[i].workers
    ensures exists earlier :: Sent(cid, earlier, states[i].workers[actions[i].w].asker) in states[i].sent
  {
    ReachableSystems(states, actions, i);
    var x := states[i];
    assert Act(x, actions[i], states[i + 1]);
    assert QueueOk(x, x.workers[actions[i].w]);
    assert Sent(cid, x.workers[actions[i].w].phase.job.stamp, x.workers[actions[i].w].asker) in x.sent;
  }

  // ---------------------------------------------------------------------------
  // Rebinding
  // ---------------------------------------------------------------------------

  /** Step k of the run is worker w's look at the registry, with the gate open, as recorded in g. */
  ghost predicate Looked(states: seq<System>, actions: seq<Action>, k: nat, w: nat, g: Gate)
  {
    && k < |actions| && k < |states| && actions[k] == Look(w)
    && w in states[k].workers
    && states[k].registered == g.registered
    && Opens(g.registered, states[k].workers[w].asker)
    && g.tuple == g.registered[states[k].workers[w].asker]
  }

  /** Step m of the run is worker w's snapshot of orphans; the stash was pending then, carried the gate's tuple,
      and belonged to a peer that was not registered when the gate was read. */
  ghost predicate Orphaned(states: seq<System>, actions: seq<Action>, m: nat, w: nat, g: Gate, j: Job) {
    && m < |actions| && m < |states| && actions[m].SnapshotOrphans? && actions[m].w == w
    && Pending(states[m].asks, j.cid, j.stamp)
    && states[m].asks[j.cid].identity == Some(g.tuple)
    && states[m].asks[j.cid].from !in g.registered
  }

  function GateOf(p: Phase): Option<Gate> {
    match p
    case Selecting(g) => Some(g)
    case Delivering(_, g) => g
    case Marking(_, _, g) => g
    case _ => None
  }

  predicate Carries(p: Phase, j: Job) {
    j in Queue(p) || (p.Marking? && p.job == j)
  }

  /** Step m of the run is worker w's snapshot of its asker's own stashes, this one among them. */
  ghost predicate Owned(states: seq<System>, actions: seq<Action>, m: nat, w: nat, j: Job) {
    && m < |actions| && m < |states| && actions[m].SnapshotOwn? && actions[m].w == w
    && w in states[m].workers
    && Pending(states[m].asks, j.cid, j.stamp)
    && states[m].asks[j.cid].from == states[m].workers[w].asker
  }

  ghost predicate FoundAt(states: seq<System>, actions: seq<Action>, m: nat, w: nat, gate: Option<Gate>, j: Job) {
    if gate.Some? then Orphaned(states, actions, m, w, gate.value, j) else Owned(states, actions, m, w, j)
  }

  /** A worker's gate and jobs go back to steps before i of the run. */
  ghost predicate Explained(states: seq<System>, actions: seq<Action>, i: nat, w: nat, p: Phase) {
    && (GateOf(p).Some? ==> exists k: nat :: k < i && Looked(states, actions, k, w, GateOf(p).value))
    && (forall j :: Carries(p, j) ==> exists m: nat :: m < i && FoundAt(states, actions, m, w, GateOf(p), j))
  }

  lemma StepExplains(states: seq<System>, actions: seq<Action>, i: nat, w: nat)
    requires SystemRun(states, actions) && i < |actions|
    requires w in states[i].workers && w in states[i + 1].workers
    requires Explained(states, actions, i, w, states[i].workers[w].phase)
    ensures Explained(states, actions, i + 1, w, states[i + 1].workers[w].phase)
    ensures states[i + 1].workers[w].asker == states[i].workers[w].asker
  {
    var x, y := states[i], states[i + 1];
    assert Act(x, actions[i], y);
    var p, q := x.workers[w].phase, y.workers[w].phase;
    if GateOf(q).Some? {
      if actions[i] == Look(w) {
        assert Looked(states, actions, i, w, GateOf(q).value);
      } else {
        var k: nat :| k < i && Looked(states, actions, k, w, GateOf(p).value);
        assert k < i + 1;
      }
    }
    forall j | Carries(q, j) ensures exists m: nat :: m < i + 1 && FoundAt(states, actions, m, w, GateOf(q), j) {
      if Carries(p, j) {
        var m: nat :| m < i && FoundAt(states, actions, m, w, GateOf(p), j);
        assert m < i + 1;
      } else {
        assert FoundAt(states, actions, i, w, GateOf(q), j);
      }
    }
  }

  lemma {:induction false} WorkersAreExplained(states: seq<System>, actions: seq<Action>, i: nat, w: nat)
    requires SystemRun(states, actions) && i < |states| && w in states[i].workers
    ensures Explained(states, actions, i, w, states[i].workers[w].phase)
    ensures forall k: nat :: k < i && w in states[k].workers ==> states[k].workers[w].asker == states[i].workers[w].asker
  {
    if i > 0 {
      assert Act(states[i - 1], actions[i - 1], states[i]);
      if w in states[i - 1].workers {
        WorkersAreExplained(states, actions, i - 1, w);
        StepExplains(states, actions, i - 1, w);
      } else {
        NeverBefore(states, actions, i - 1, w);
      }
    }
  }

  lemma {:induction false} NeverBefore(states: seq<System>, actions: seq<Action>, i: nat, w: nat)
    requires SystemRun(states, actions) && i < |states| && w !in states[i].workers
    ensures forall k: nat :: k <= i ==> w !in states[k].workers
  {
    if i > 0 {
      assert Act(states[i - 1], actions[i - 1], states[i]);
      NeverBefore(states, actions, i - 1, w);
    }
  }

  /** A mark moves an ask to a new asker only if, when the gate was read, that asker was the one registered peer with
      its complete identity tuple, and the stash it delivered was made under that very tuple for an asker no longer
      registered. */
  lemma RebindNeedsSoleMatch(states: seq<System>, actions: seq<Action>, i: nat, cid: string)
    returns (look: nat, snapshot: nat)
    requires SystemRun(states, actions) && i < |actions| && !actions[i].Elsewhere?
    requires cid in states[i].asks && cid in states[i + 1].asks
    requires states[i + 1].asks[cid].from != states[i].asks[cid].from
    ensures actions[i].Mark? && actions[i].w in states[i].workers && states[i].workers[actions[i].w].phase.Marking?
    ensures look < i && snapshot < i && actions[look] == Look(actions[i].w)
    ensures
      var asker, registered := states[i + 1].asks[cid].from, states[look].registered;
      && asker == states[i].workers[actions[i].w].asker
      && asker in registered
      && registered[asker].name != "" && registered[asker].circle != "" && registered[asker].backend != ""
      && registered[asker].path != "" && registered[asker].machine !in {"", "unknown"}
      && (forall o :: o in registered && registered[o] == registered[asker] ==> o == asker)
      && actions[snapshot].SnapshotOrphans? && actions[snapshot].w == actions[i].w
      && Pending(states[snapshot].asks, cid, states[i].workers[actions[i].w].phase.job.stamp)
      && states[snapshot].asks[cid].identity == Some(registered[asker])
      && states[snapshot].asks[cid].from !in registered
  {
    var x, w := states[i], actions[i].w;
    assert Act(x, actions[i], states[i + 1]);
    WorkersAreExplained(states, actions, i, w);
    var p := x.workers[w].phase;
    assert Carries(p, p.job);
    look :| look < i && Looked(states, actions, look, w, GateOf(p).value);
    snapshot :| snapshot < i && FoundAt(states, actions, snapshot, w, GateOf(p), p.job);
  }

  /** A snapshot leaves nothing out: pass one takes up every stash of the asker's own asks, pass two every stash made
      under the gate's tuple for an asker the gate did not see. */
  lemma SnapshotsAreComplete(x: System, a: Action, y: System, cid: string, stamp: nat)
    requires Act(x, a, y) && (a.SnapshotOwn? || a.SnapshotOrphans?)
    requires Pending(x.asks, cid, stamp) && a.w in x.workers
    ensures
      var owed := if a.SnapshotOwn? then x.asks[cid].from == x.workers[a.w].asker
                  else x.workers[a.w].phase.Selecting?
                       && x.asks[cid].identity == Some(x.workers[a.w].phase.through.tuple)
                       && x.asks[cid].from !in x.workers[a.w].phase.through.registered;
      owed <==> Job(cid, stamp) in a.jobs
  {
    hide Opens;
    if a.SnapshotOwn? {
      assert cid in OwnStashes(x.asks, x.workers[a.w].asker) <==> x.asks[cid].from == x.workers[a.w].asker;
    }
  }

  /** A mark of an ask that still carries a stash leaves it without one, closed, and in pass two owed to the worker's
      asker; a mark of any other ask, and for every other ask, changes nothing. */
  lemma MarkSettlesTheAsk(x: System, w: nat, y: System)
    requires Act(x, Mark(w), y)
    ensures w in x.workers && x.workers[w].phase.Marking? && y.asks.Keys == x.asks.Keys
    ensures
      var p := x.workers[w].phase;
      forall c :: c in x.asks ==>
        y.asks[c] == if c == p.job.cid && x.asks[c].pending.Some?
                     then Ask(if p.gate.Some? then x.workers[w].asker else x.asks[c].from, x.asks[c].identity, None, true)
                     else x.asks[c]
  {
  }

  /** The look lets a worker go on to pass two exactly when its asker is registered with a complete tuple that no other
      registered peer has. */
  lemma LookOpensExactlyWhen(x: System, w: nat, y: System)
    requires Act(x, Look(w), y)
    ensures w in x.workers && w in y.workers
    ensures
      var asker, registered := x.workers[w].asker, x.registered;
      y.workers[w].phase.Selecting? <==>
        && asker in registered
        && registered[asker].name != "" && registered[asker].circle != "" && registered[asker].backend != ""
        && registered[asker].path != "" && registered[asker].machine != "" && registered[asker].machine != "unknown"
        && forall o :: o in registered && o != asker ==> registered[o] != registered[asker]
  {
  }

  // ---------------------------------------------------------------------------
  // One stash, two peers
  // ---------------------------------------------------------------------------

  lemma StepKeepsOwner(x: System, a: Action, y: System, cid: string, stamp: nat)
    requires Act(x, a, y) && Pending(y.asks, cid, stamp) && stamp < x.stamps
    ensures Pending(x.asks, cid, stamp) && y.asks[cid].from == x.asks[cid].from
  {
    hide Lists, Opens;
  }

  lemma StampsGrow(x: System, a: Action, y: System)
    requires Act(x, a, y)
    ensures x.stamps <= y.stamps
  {
    hide Lists, Opens;
  }

  /** For as long as one stash is pending it is owed to one asker. */
  lemma {:induction false} StashKeepsOwner(states: seq<System>, actions: seq<Action>, i: nat, j: nat, cid: string, stamp: nat)
    requires SystemRun(states, actions) && i <= j < |states|
    requires Pending(states[i].asks, cid, stamp)
    ensures stamp < states[j].stamps
    ensures Pending(states[j].asks, cid, stamp) ==> states[j].asks[cid].from == states[i].asks[cid].from
  {
    hide Act;
    if i < j {
      StashKeepsOwner(states, actions, i, j - 1, cid, stamp);
      StampsGrow(states[j - 1], actions[j - 1], states[j]);
      if Pending(states[j].asks, cid, stamp) {
        StepKeepsOwner(states[j - 1], actions[j - 1], states[j], cid, stamp);
      }
    } else {
      ReachableSystems(states, actions, i);
    }
  }

  /** Step k of the run is the notification s, sent by worker w. */
  ghost predicate SentAt(states: seq<System>, actions: seq<Action>, k: nat, w: nat, s: Sent) {
    && k < |actions| && k < |states| && actions[k] == Notify(w, true)
    && w in states[k].workers && states[k].workers[w].asker == s.to
    && Carries(states[k].workers[w].phase, Job(s.cid, s.stamp))
  }

  lemma {:induction false} SentWasSent(states: seq<System>, actions: seq<Action>, n: nat, s: Sent) returns (k: nat, w: nat)
    requires SystemRun(states, actions) && n < |states| && s in states[n].sent
    ensures k < n && SentAt(states, actions, k, w, s)
  {
    assert Act(states[n - 1], actions[n - 1], states[n]);
    if s in states[n - 1].sent {
      k, w := SentWasSent(states, actions, n - 1, s);
    } else {
      k, w := n - 1, actions[n - 1].w;
    }
  }

  /** Where a notification's job came from: the look of a pass-two worker, if it was one, and the snapshot. */
  ghost predicate CameFrom(states: seq<System>, actions: seq<Action>, n: nat, w: nat, gate: Option<Gate>, m: nat, s: Sent) {
    && m < n && n < |states| && FoundAt(states, actions, m, w, gate, Job(s.cid, s.stamp))
    && (gate.None? ==> w in states[m].workers && states[m].workers[w].asker == s.to)
    && (gate.Some? ==> exists k: nat :: k < n && Looked(states, actions, k, w, gate.value) && states[k].workers[w].asker == s.to)
  }

  lemma SentCameFrom(states: seq<System>, actions: seq<Action>, n: nat, s: Sent)
    returns (w: nat, gate: Option<Gate>, m: nat)
    requires SystemRun(states, actions) && n < |states| && s in states[n].sent
    ensures CameFrom(states, actions, n, w, gate, m, s)
  {
    hide Act;
    var i;
    i, w := SentWasSent(states, actions, n, s);
    WorkersAreExplained(states, actions, i, w);
    var p := states[i].workers[w].phase;
    gate := GateOf(p);
    m :| m < i && FoundAt(states, actions, m, w, gate, Job(s.cid, s.stamp));
    if gate.Some? {
      var k: nat :| k < i && Looked(states, actions, k, w, gate.value);
      assert k < n && states[k].workers[w].asker == s.to;
    }
  }

  /** Two peers are both sent one stash only if one of them got it in pass two: at some look of its worker it was the
      one registered peer with its tuple, the stash carried that tuple, and the asker it was owed to was not
      registered. So a stash whose asker stays registered reaches one peer at most. */
  lemma SharedStashWasRebound(states: seq<System>, actions: seq<Action>, n: nat, a: Sent, b: Sent)
    returns (late: Sent, look: nat, snapshot: nat)
    requires SystemRun(states, actions) && n < |states|
    requires a in states[n].sent && b in states[n].sent
    requires a.cid == b.cid && a.stamp == b.stamp && a.to != b.to
    ensures late == a || late == b
    ensures look < n && snapshot < n && look < |actions| && snapshot < |actions|
    ensures actions[look].Look? && actions[snapshot].SnapshotOrphans? && actions[look].w == actions[snapshot].w
    ensures
      var registered := states[look].registered;
      && Opens(registered, late.to)
      && Pending(states[snapshot].asks, late.cid, late.stamp)
      && states[snapshot].asks[late.cid].identity == Some(registered[late.to])
      && states[snapshot].asks[late.cid].from !in registered
  {
    var v, g, m := SentCameFrom(states, actions, n, a);
    var w, h, k := SentCameFrom(states, actions, n, b);
    if g.None? && h.None? {
      if m <= k {
        StashKeepsOwner(states, actions, m, k, a.cid, a.stamp);
      } else {
        StashKeepsOwner(states, actions, k, m, a.cid, a.stamp);
      }
      assert false;
    }
    if g.Some? {
      late, snapshot := a, m;
      look :| look < n && Looked(states, actions, look, v, g.value) && states[look].workers[v].asker == a.to;
    } else {
      late, snapshot := b, k;
      look :| look < n && Looked(states, actions, look, w, h.value) && states[look].workers[w].asker == b.to;
    }
  }

  // ---------------------------------------------------------------------------
  // Where the promise ends
  // ---------------------------------------------------------------------------

  /** A stash renewed between a worker's snapshot and its mark is lost: cleared, yet never sent to anyone. */
  lemma RenewedStashIsLost(x: System, w: nat, cid: string) returns (states: seq<System>, actions: seq<Action>)
    requires w in x.workers && x.workers[w].phase.Delivering?
    requires x.workers[w].phase.queue != [] && x.workers[w].phase.queue[0].cid == cid && cid in x.asks
    requires forall s :: s in x.sent ==> s.stamp < x.stamps
    requires x.workers[w].phase.queue[0].stamp < x.stamps
    ensures |actions| == 3 && |states| == 4 && states[0] == x
    ensures forall i :: 0 <= i < 3 ==> Act(states[i], actions[i], states[i + 1])
    ensures Pending(states[2].asks, cid, x.stamps)
    ensures cid in states[3].asks && states[3].asks[cid].pending == None
    ensures forall to :: Sent(cid, x.stamps, to) !in states[3].sent
  {
    var renewed := x.asks[cid := x.asks[cid].(pending := Some(x.stamps))];
    var p := x.workers[w].phase;
    var asker := x.workers[w].asker;
    actions := [Notify(w, true), Elsewhere(renewed, x.stamps + 1, x.registered), Mark(w)];
    var a := At(x, w, Marking(p.queue[0], p.queue[1..], p.gate)).(sent := x.sent + [Sent(cid, p.queue[0].stamp, asker)]);
    var b := a.(asks := renewed, stamps := x.stamps + 1);
    var c := At(b, w, Delivering(p.queue[1..], p.gate)).(asks := Marked(b.asks, cid, p.gate.Some?, asker));
    states := [x, a, b, c];
    assert Act(x, actions[0], a) && Act(a, actions[1], b) && Act(b, actions[2], c);
  }

  // ---------------------------------------------------------------------------
  // The critical sections
  // ---------------------------------------------------------------------------

  /** Pass two's look: collect every registered peer with the asker's tuple and compare with the asker itself. */
  method ReadGate(registered: map<PeerId, Identity>, asker: PeerId) returns (gate: Option<Gate>)
    ensures gate == if Opens(registered, asker) then Some(Gate(registered[asker], registered)) else None
    ensures gate.Some? <==>
              && asker in registered
              && registered[asker].name != "" && registered[asker].circle != "" && registered[asker].backend != ""
              && registered[asker].path != "" && registered[asker].machine != "" && registered[asker].machine != "unknown"
              && forall o :: o in registered && o != asker ==> registered[o] != registered[asker]
  {
    if asker !in registered || !Complete(registered[asker]) {
      return None;
    }
    var tuple, matches, rest := registered[asker], [], registered.Keys;
    while rest != {}
      invariant rest <= registered.Keys
      invariant forall id :: id in matches <==> id in registered && id !in rest && registered[id] == tuple
      invariant forall i, k :: 0 <= i < k < |matches| ==> matches[i] != matches[k]
    {
      var id :| id in rest;
      if registered[id] == tuple {
        matches := matches + [id];
      }
      rest := rest - {id};
    }
    assert asker in matches;
    if |matches| == 1 && matches[0] == asker {
      gate := Some(Gate(tuple, registered));
    } else {
      assert |matches| > 1 ==> matches[0] in matches && matches[1] in matches;
      gate := None;
    }
  }

  /** The single-flight slots. The ghost machine knows which workers are behind them. */
  class RedeliverySlots {
    var active: set<PeerId>
    ghost var system: System

    ghost predicate Valid()
      reads this
    {
      active == system.active && SystemInv(system)
    }

    constructor (ghost start: System)
      requires Start(start)
      ensures Valid() && system == start
    {
      active, system := {}, start;
    }

    /** The machine's other steps, which leave the slots alone. */
    ghost method Advance(a: Action, y: System)
      requires Valid() && Act(system, a, y) && !a.Claim? && !a.Release?
      modifies this`system
      ensures Valid() && system == y
    {
      ActionKeepsSystem(system, a, y);
      system := y;
    }

    method ClaimRedelivery(id: PeerId, ghost w: nat) returns (won: bool)
      requires Valid() && w in system.workers && system.workers[w] == Worker(id, Scheduled)
      modifies this
      ensures Valid() && system == Claimed(old(system), w)
      ensures won <==> system.workers[w].phase == Holding
      ensures won <==> id !in old(active)
      ensures active == old(active) + {id}
    {
      ActionKeepsSystem(system, Claim(w), Claimed(system, w));
      system := Claimed(system, w);
      if id in active {
        return false;
      }
      active := active + {id};
      return true;
    }

    method ReleaseRedelivery(id: PeerId, ghost w: nat)
      requires Valid() && w in system.workers && system.workers[w] == Worker(id, Releasing)
      modifies this
      ensures Valid() && system == Released(old(system), w)
      ensures active == old(active) - {id}
    {
      ActionKeepsSystem(system, Release(w), Released(system, w));
      system := Released(system, w);
      active := active - {id};
    }
  }
}
