/** Safety of the registry over whole runs, whatever the order of its operations. */
module Runs {
  import opened Fsm
  import opened Peers
  import opened RegistrySpec
  import opened RoleClaims
  import opened RegistrySteps
  import opened RegistrationLaws
  import opened TombstoneLaws

  /** Any run without restart: hydrated start, then critical sections in any order. */
  ghost predicate Run(states: seq<State>, ops: seq<Op>) {
    && |states| == |ops| + 1
    && Init(states[0])
    && forall i :: 0 <= i < |ops| ==> Step(states[i], ops[i], states[i + 1])
  }

  /** A registration whose retirement guard accepted a proof against a soft tombstone. */
  predicate LiftsRetirement(s: State, op: Op) {
    op.Allocate? && GuardAccepts(s, op.p, op.env)
  }

  /** The step is a registration that answers with this id. */
  ghost predicate Registers(s: State, op: Op, s': State, id: PeerId) {
    op.Allocate? && exists r :: Allocated(s, op.p, op.env, op.now, s', r) && r.Registered? && r.id == id
  }

  /** A step's effect on lifecycles: along the diagram; a record is created or revived only by registering that very
      id; only an accepted proof leaves Retired. */
  ghost predicate LifecycleDiscipline(s: State, op: Op, s': State) {
    && (forall id :: id in s.peers && id in s'.peers ==>
          && (s.peers[id].state == s'.peers[id].state || Edge(s.peers[id].state, s'.peers[id].state))
          && (!Live(s.peers[id].state) && Live(s'.peers[id].state) ==> Registers(s, op, s', id))
          && (s.peers[id].state == Retired && s'.peers[id].state != Retired ==>
                Registers(s, op, s', id) && LiftsRetirement(s, op)))
    && (forall id :: id in s'.peers && id !in s.peers ==> Registers(s, op, s', id) && s'.peers[id].state == Online)
  }

  /** A step's effect on the durable rows, as far as a flusher is concerned. */
  ghost predicate WriteDiscipline(s: State, op: Op, s': State) {
    && WritesMarked(s, s')
    && RowsLeaveWithRecords(s, s')
    && (forall id :: id in s'.mappings && id !in s.mappings ==> op.Allocate? && id == op.env.freshId)
  }

  lemma StepKeeps(s: State, op: Op, s': State)
    requires Inv(s) && Step(s, op, s')
    ensures Inv(s') && LifecycleDiscipline(s, op, s') && WriteDiscipline(s, op, s')
  {
    hide Step, LiftsRetirement, Registers, Backed;
    if op.Allocate? {
      AllocationStepKeeps(s, op, s');
    } else {
      NonAllocationIsTame(s, op, s');
      TameIsDisciplined(s, op, s');
    }
  }

  lemma TameIsDisciplined(s: State, op: Op, s': State)
    requires Tame(s, s')
    ensures LifecycleDiscipline(s, op, s') && WriteDiscipline(s, op, s')
  {
    hide LiftsRetirement, Registers, Backed;
  }

  lemma AllocationStepKeeps(s: State, op: Op, s': State)
    requires op.Allocate? && Inv(s) && Step(s, op, s')
    ensures Inv(s') && LifecycleDiscipline(s, op, s') && WriteDiscipline(s, op, s')
  {
    hide Inv, Allocated, GuardAccepts, RegistrationDiscipline, LifecycleDiscipline, WriteDiscipline;
    var r :| Allocated(s, op.p, op.env, op.now, s', r);
    RegistrationKeeps(s, op.p, op.env, op.now, s', r);
    RegistrationRevivesOne(s, op, s', r);
    RegistrationWrites(s, op, s');
  }

  lemma RegistrationRevivesOne(s: State, op: Op, s': State, r: Registration)
    requires op.Allocate? && Allocated(s, op.p, op.env, op.now, s', r)
    requires RegistrationDiscipline(s, LiftsRetirement(s, op), op.env.freshId, s')
    requires forall o :: o in s'.peers && (o in s.peers ==> !Live(s.peers[o].state)) && Live(s'.peers[o].state) ==>
               r.Registered? && r.id == o
    ensures LifecycleDiscipline(s, op, s')
  {
    hide Allocated, LiftsRetirement, Inv;
    assert r.Registered? ==> Registers(s, op, s', r.id);
  }

  lemma RegistrationWrites(s: State, op: Op, s': State)
    requires op.Allocate? && RegistrationDiscipline(s, LiftsRetirement(s, op), op.env.freshId, s')
    ensures Inv(s') && WriteDiscipline(s, op, s')
  {
    hide LiftsRetirement, Inv, RegisteredMove, SameIdentity;
  }

  /** In every reachable state each record is stored under its own id, reports the status of its lifecycle state,
      and has a durable row that agrees with it on name, circle, role, backend and description. */
  lemma {:induction false} ReachableStatesAgree(states: seq<State>, ops: seq<Op>, i: nat)
    requires Run(states, ops) && i < |states|
    ensures Inv(states[i])
    ensures forall id :: id in states[i].peers ==>
              && id in states[i].mappings && states[i].peers[id].peer.id == id && states[i].mappings[id].id == id
              && states[i].peers[id].state != Unregistered
              && states[i].peers[id].peer.status ==
                   (if states[i].peers[id].state == Online then StatusOnline
                    else if states[i].peers[id].state == Busy then StatusBusy else StatusOffline)
              && states[i].mappings[id].name == states[i].peers[id].peer.name
              && states[i].mappings[id].circle == states[i].peers[id].peer.circle
              && states[i].mappings[id].role == states[i].peers[id].peer.role
              && states[i].mappings[id].backend == states[i].peers[id].peer.backend
              && states[i].mappings[id].description == states[i].peers[id].peer.description
  {
    hide Step;
    if i > 0 {
      ReachableStatesAgree(states, ops, i - 1);
      StepKeeps(states[i - 1], ops[i - 1], states[i]);
    }
  }

  /** Every state change in a run is an edge of the diagram, and a record is created or revived only by registering
      its own id. */
  lemma RunFollowsDiagram(states: seq<State>, ops: seq<Op>, i: nat)
    requires Run(states, ops) && i < |ops|
    ensures LifecycleDiscipline(states[i], ops[i], states[i + 1])
  {
    hide Step, Inv;
    ReachableStatesAgree(states, ops, i);
    StepKeeps(states[i], ops[i], states[i + 1]);
  }

  /** The redelivery branch of UpdateStatus is dead code: no status frame revives an Offline record. */
  lemma StatusNeverRevives(s: State, id: PeerId, status: PeerStatus)
    ensures !StatusRevives(s, id, status)
  {
  }

  /** A retired record stays retired, and reports offline, until a registration answers with its id after the guard
      accepted a proof against a soft tombstone; registrations of others, proven or not, do not move it. */
  lemma {:induction false} RetiredStaysRetired(states: seq<State>, ops: seq<Op>, i: nat, j: nat, id: PeerId)
    requires Run(states, ops) && i <= j < |states|
    requires forall k :: i <= k <= j ==> id in states[k].peers
    requires states[i].peers[id].state == Retired
    requires forall k :: i <= k < j ==> !(LiftsRetirement(states[k], ops[k]) && Registers(states[k], ops[k], states[k + 1], id))
    ensures states[j].peers[id].state == Retired && states[j].peers[id].peer.status == StatusOffline
  {
    hide Step, LiftsRetirement, Registers;
    ReachableStatesAgree(states, ops, j);
    assert Backed(id, states[j].peers[id], states[j].mappings);
    if i < j {
      RetiredStaysRetired(states, ops, i, j - 1, id);
      RunFollowsDiagram(states, ops, j - 1);
    }
  }

  /** A record seen dead and later live was itself registered in between. */
  lemma {:induction false} RevivalMeansRegistration(states: seq<State>, ops: seq<Op>, i: nat, j: nat, id: PeerId)
    requires Run(states, ops) && i <= j < |states|
    requires forall k :: i <= k <= j ==> id in states[k].peers
    requires !Live(states[i].peers[id].state) && Live(states[j].peers[id].state)
    ensures exists k :: i <= k < j && Registers(states[k], ops[k], states[k + 1], id)
  {
    hide Step, Live, Registers, LiftsRetirement;
    if !Live(states[j - 1].peers[id].state) {
      RunFollowsDiagram(states, ops, j - 1);
    } else {
      RevivalMeansRegistration(states, ops, i, j - 1, id);
    }
  }

  // ---------------------------------------------------------------------------
  // Panes
  // ---------------------------------------------------------------------------

  /** The step is a registration that answers with a and puts it on the pane of the live record b. */
  ghost predicate JoinsPane(s: State, op: Op, s': State, a: PeerId, b: PeerId) {
    Registers(s, op, s', a) && StartsSharing(s, op.p, op.env, op.now, a, b)
  }

  /** Over every run, two live records come to share a pane only by registering one of them: under the pane of a sticky
      orchestrator, or without naming a pane after it kept its own while dead. */
  lemma SharingBeginsByRegistering(states: seq<State>, ops: seq<Op>, i: nat, a: PeerId, b: PeerId)
    requires Run(states, ops) && i < |ops|
    ensures Share(states[i + 1], a, b) && !Share(states[i], a, b) <==>
              JoinsPane(states[i], ops[i], states[i + 1], a, b) || JoinsPane(states[i], ops[i], states[i + 1], b, a)
  {
    hide Step, Inv, StartsSharing, Share;
    ReachableStatesAgree(states, ops, i);
    var s, op, s' := states[i], ops[i], states[i + 1];
    ShareIsSymmetric(s, a, b);
    ShareIsSymmetric(s', a, b);
    if op.Allocate? {
      SharingStep(s, op, s', a, b);
    } else {
      NonAllocationIsTame(s, op, s');
      if Share(s', a, b) {
        TameStartsNoSharing(s, s', a, b);
      }
    }
  }

  lemma ShareIsSymmetric(s: State, a: PeerId, b: PeerId)
    ensures Share(s, a, b) <==> Share(s, b, a)
  {
  }

  lemma TameStartsNoSharing(s: State, s': State, a: PeerId, b: PeerId)
    requires Tame(s, s') && Share(s', a, b)
    ensures Share(s, a, b)
  {
    hide Inv, InLockstep, WritesMarked, RowsLeaveWithRecords;
  }

  lemma SharingStep(s: State, op: Op, s': State, a: PeerId, b: PeerId)
    requires op.Allocate? && Inv(s) && Step(s, op, s')
    ensures Share(s', a, b) && !Share(s, a, b) <==> JoinsPane(s, op, s', a, b) || JoinsPane(s, op, s', b, a)
  {
    hide Inv, Allocated, MintIsFresh, StartsSharing, Share;
    ShareIsSymmetric(s, a, b);
    ShareIsSymmetric(s', a, b);
    SharingNeedsTwo(s, op, s', a, b);
    forall r | Allocated(s, op.p, op.env, op.now, s', r) && r.Registered?
      ensures r.id == a && a != b ==>
                (Share(s', a, b) && !Share(s, a, b) <==> StartsSharing(s, op.p, op.env, op.now, a, b))
      ensures r.id == b && a != b ==>
                (Share(s', b, a) && !Share(s, b, a) <==> StartsSharing(s, op.p, op.env, op.now, b, a))
    {
      if r.id == a && a != b {
        SharingBeginsExactlyWhen(s, op.p, op.env, op.now, s', r, b);
      }
      if r.id == b && a != b {
        SharingBeginsExactlyWhen(s, op.p, op.env, op.now, s', r, a);
      }
    }
    var r :| Allocated(s, op.p, op.env, op.now, s', r);
    if Share(s', a, b) && !Share(s, a, b) && (r.Registered? ==> r.id != a && r.id != b) {
      BystandersStartNoSharing(s, op.p, op.env, op.now, s', r, a, b);
    }
  }

  lemma SharingNeedsTwo(s: State, op: Op, s': State, a: PeerId, b: PeerId)
    requires op.Allocate?
    ensures Share(s', a, b) || StartsSharing(s, op.p, op.env, op.now, a, b) || StartsSharing(s, op.p, op.env, op.now, b, a) ==> a != b
  {
    hide StickyOrchestrator;
  }

  // ---------------------------------------------------------------------------
  // Tombstones
  // ---------------------------------------------------------------------------

  /** A registration claiming id whose proof was accepted against its soft tombstone. */
  predicate LiftedByProof(s: State, op: Op, id: PeerId) {
    LiftsRetirement(s, op) && op.p.claimed == Some(id) && id in s.retired && !s.retired[id].hard
  }

  /** The tombstone had reached the age at which it is pruned. */
  predicate PrunedByAge(s: State, op: Op, id: PeerId) {
    op.PruneRetired? && id in s.retired && s.retired[id].at <= op.cutoff
  }

  lemma TombstoneStep(s: State, op: Op, s': State, id: PeerId)
    requires Inv(s) && Step(s, op, s')
    requires id in s.retired && id !in s'.retired
    ensures LiftedByProof(s, op, id) || PrunedByAge(s, op, id)
  {
    hide Inv;
    if op.Allocate? {
      hide Allocated, MintIsFresh;
      var r :| Allocated(s, op.p, op.env, op.now, s', r);
      RegistrantIsLiveExactlyWhen(s, op.p, op.env, op.now, s', r);
    } else if !op.PruneRetired? {
      OthersKeepTombstones(s, op, s');
    }
  }

  lemma OthersKeepTombstones(s: State, op: Op, s': State)
    requires Step(s, op, s') && !op.Allocate? && !op.PruneRetired?
    ensures s.retired.Keys <= s'.retired.Keys
  {
    hide FormerHolders, Blockers, RemovableIds, Namesakes, Transitioned;
  }

  /** A tombstone leaves only by a registration that claims its id with an accepted proof while it is soft, or by age. */
  lemma {:induction false} TombstoneLeavesByProofOrAge(states: seq<State>, ops: seq<Op>, i: nat, j: nat, id: PeerId)
    requires Run(states, ops) && i <= j < |states|
    requires id in states[i].retired && id !in states[j].retired
    ensures exists k :: i <= k < j && (LiftedByProof(states[k], ops[k], id) || PrunedByAge(states[k], ops[k], id))
  {
    hide Step, Inv, LiftedByProof, PrunedByAge;
    if id in states[j - 1].retired {
      ReachableStatesAgree(states, ops, j - 1);
      TombstoneStep(states[j - 1], ops[j - 1], states[j], id);
    } else {
      TombstoneLeavesByProofOrAge(states, ops, i, j - 1, id);
    }
  }

  predicate HardRetired(s: State, id: PeerId) {
    id in s.retired && s.retired[id].hard
  }

  /** An ordinary terminal mark or a reap overwrites the tombstone with a soft one. */
  predicate Softens(s: State, op: Op, id: PeerId) {
    || (op.MarkOffline? && op.id == id && op.terminal && !op.hard && !(id in s.peers && s.peers[id].state == Retired))
    || (op.ReapCommit? && Removable(s, op.stale, op.evidence, op.cutoff, id))
  }

  lemma RegistrationSparesHard(s: State, op: Op, s': State, id: PeerId)
    requires op.Allocate? && Inv(s) && Step(s, op, s') && HardRetired(s, id)
    ensures HardRetired(s', id)
  {
    hide Allocated, MintIsFresh, Inv;
    var r :| Allocated(s, op.p, op.env, op.now, s', r);
    RegistrantIsLiveExactlyWhen(s, op.p, op.env, op.now, s', r);
  }

  lemma MarkSoftensExactlyWhen(s: State, op: Op, s': State, id: PeerId)
    requires op.MarkOffline? && Inv(s) && Step(s, op, s') && HardRetired(s, id)
    ensures id in s'.retired && (!s'.retired[id].hard <==> Softens(s, op, id))
  {
    hide Transitioned, Inv, Removable;
    if id in s.peers {
      RegisteredIsRetirable(s, id);
    }
  }

  /** A terminal mark is illegal for a Retired record only. */
  lemma RegisteredIsRetirable(s: State, id: PeerId)
    requires Inv(s) && id in s.peers
    ensures Apply(s.peers[id].state, TerminalOffline).Illegal? <==> s.peers[id].state == Retired
  {
    assert Backed(id, s.peers[id], s.mappings);
  }

  lemma RemovalSoftensExactlyWhen(s: State, op: Op, s': State, id: PeerId)
    requires (op.ReapCommit? || op.PruneRetired?) && Step(s, op, s') && HardRetired(s, id)
    ensures id !in s'.retired <==> PrunedByAge(s, op, id)
    ensures id in s'.retired && !s'.retired[id].hard <==> Softens(s, op, id)
  {
    hide Dangling, RuntimeMarker;
  }

  lemma OthersKeepTombstonesAsTheyAre(s: State, op: Op, s': State)
    requires Step(s, op, s') && !op.Allocate? && !op.MarkOffline? && !op.PruneRetired? && !op.ReapCommit?
    ensures s'.retired == s.retired
  {
    hide FormerHolders, Blockers, RemovableIds, Namesakes, Transitioned;
  }

  /** A hard tombstone turns soft exactly by a terminal mark that is not a close, unless the record is already Retired,
      or by a reap of its id; it is gone exactly when it is pruned. */
  lemma HardSoftensExactlyWhen(s: State, op: Op, s': State, id: PeerId)
    requires Inv(s) && Step(s, op, s') && HardRetired(s, id)
    ensures id in s'.retired && !s'.retired[id].hard <==> Softens(s, op, id)
    ensures id !in s'.retired <==> PrunedByAge(s, op, id)
  {
    hide Inv, Step, Removable;
    if op.Allocate? {
      RegistrationSparesHard(s, op, s', id);
    } else if op.MarkOffline? {
      MarkSoftensExactlyWhen(s, op, s', id);
    } else if op.ReapCommit? || op.PruneRetired? {
      RemovalSoftensExactlyWhen(s, op, s', id);
    } else {
      OthersKeepTombstonesAsTheyAre(s, op, s');
    }
  }

  /** A hard tombstone stays in place and hard for as long as nothing softens or prunes it. That alone does not keep
      its id from coming to life: see MayWake. */
  lemma {:induction false} HardRetirementStands(states: seq<State>, ops: seq<Op>, i: nat, j: nat, id: PeerId)
    requires Run(states, ops) && i <= j < |states|
    requires HardRetired(states[i], id)
    requires forall k :: i <= k < j ==> !Softens(states[k], ops[k], id) && !PrunedByAge(states[k], ops[k], id)
    ensures HardRetired(states[j], id)
  {
    hide Inv, Softens, PrunedByAge, Step;
    if i < j {
      HardRetirementStands(states, ops, i, j - 1, id);
      ReachableStatesAgree(states, ops, j - 1);
      HardSoftensExactlyWhen(states[j - 1], ops[j - 1], states[j], id);
    }
  }

  /** Over that stretch every registration claiming the id is refused and without effect, whatever it proves. */
  lemma HardClaimsAreRefused(states: seq<State>, ops: seq<Op>, i: nat, j: nat, id: PeerId, r: Registration)
    requires Run(states, ops) && i <= j < |ops|
    requires HardRetired(states[i], id)
    requires forall k :: i <= k < j ==> !Softens(states[k], ops[k], id) && !PrunedByAge(states[k], ops[k], id)
    requires ops[j].Allocate? && ops[j].p.claimed == Some(id)
    requires Allocated(states[j], ops[j].p, ops[j].env, ops[j].now, states[j + 1], r)
    ensures r == Refused(PeerRetired) && states[j + 1] == states[j]
  {
    hide Inv, Softens, PrunedByAge, AllocatedAs, Step;
    HardRetirementStands(states, ops, i, j, id);
  }

  /** A registration that may bring the dormant id to life although its tombstone stands. */
  ghost predicate MayWake(s: State, op: Op, id: PeerId) {
    op.Allocate? && MayWakeDormant(s, op.p, op.env, op.now, id)
  }

  lemma DormantStep(s: State, op: Op, s': State, id: PeerId)
    requires Inv(s) && Step(s, op, s') && Dormant(s, id)
    ensures Dormant(s', id) || LiftedByProof(s, op, id) || PrunedByAge(s, op, id) || MayWake(s, op, id)
  {
    hide Inv, LiftedByProof, PrunedByAge, MayWakeDormant, Step;
    if id !in s'.retired {
      TombstoneStep(s, op, s', id);
    } else if !Dormant(s', id) {
      StepKeeps(s, op, s');
      assert Registers(s, op, s', id);
      RegistrantMayWake(s, op, s', id);
    }
  }

  lemma RegistrantMayWake(s: State, op: Op, s': State, id: PeerId)
    requires Inv(s) && Step(s, op, s') && Dormant(s, id) && Registers(s, op, s', id)
    requires id in s'.retired && id in s'.peers && Live(s'.peers[id].state)
    ensures MayWake(s, op, id)
  {
    hide Inv, Allocated, MintIsFresh, MayWakeDormant;
    var r :| Allocated(s, op.p, op.env, op.now, s', r) && r.Registered? && r.id == id;
    WokenMayBe(s, op.p, op.env, op.now, s', r, id);
  }

  /** A tombstoned id without a live record stays so, over any run, until its tombstone is lifted by proof or pruned, or a
      registration takes over its record or adopts its row without asking for the tombstone. */
  lemma {:induction false} DormantStaysDormant(states: seq<State>, ops: seq<Op>, i: nat, j: nat, id: PeerId)
    requires Run(states, ops) && i <= j < |states|
    requires Dormant(states[i], id)
    requires forall k :: i <= k < j ==> !LiftedByProof(states[k], ops[k], id) && !PrunedByAge(states[k], ops[k], id)
    requires forall k :: i <= k < j ==> !MayWake(states[k], ops[k], id)
    ensures Dormant(states[j], id)
  {
    hide Inv, Step, Dormant, LiftedByProof, PrunedByAge, MayWake;
    if i < j {
      DormantStaysDormant(states, ops, i, j - 1, id);
      ReachableStatesAgree(states, ops, j - 1);
      DormantStep(states[j - 1], ops[j - 1], states[j], id);
    }
  }

  /** Hard retirement is final for as long as nothing softens or prunes the tombstone and no registration takes over or
      adopts the id behind its back: no proof of any kind lifts it, and the id has no live record. */
  lemma {:induction false} HardRetirementIsFinal(states: seq<State>, ops: seq<Op>, i: nat, j: nat, id: PeerId)
    requires Run(states, ops) && i <= j < |states|
    requires HardRetired(states[i], id) && Dormant(states[i], id)
    requires forall k :: i <= k < j ==> !Softens(states[k], ops[k], id) && !PrunedByAge(states[k], ops[k], id)
    requires forall k :: i <= k < j ==> !MayWake(states[k], ops[k], id)
    ensures HardRetired(states[j], id) && Dormant(states[j], id)
  {
    hide Inv, Step, Dormant, Softens, PrunedByAge, MayWake, LiftsRetirement;
    if i < j {
      HardRetirementIsFinal(states, ops, i, j - 1, id);
      HardRetirementStands(states, ops, i, j, id);
      ReachableStatesAgree(states, ops, j - 1);
      DormantStep(states[j - 1], ops[j - 1], states[j], id);
    }
  }

  /** Closing a peer leaves a hard tombstone except exactly when its record is already Retired without one:
      the illegal move returns before the tombstone is written. */
  lemma CloseHardensExactlyWhen(s: State, id: PeerId, now: Time)
    requires Inv(s)
    ensures
      var retired := MarkedOffline(s, id, true, true, now).retired;
      (id in retired && retired[id].hard) <==>
        !(id in s.peers && s.peers[id].state == Retired) || (id in s.retired && s.retired[id].hard)
  {
    if id in s.peers {
      assert Backed(id, s.peers[id], s.mappings);
    }
  }

  // ---------------------------------------------------------------------------
  // Identity
  // ---------------------------------------------------------------------------

  /** The operations meant to change the name, circle, role or description of id: edits of its own, and role claims,
      which may demote an orchestrator of the circle they are about. */
  predicate EditsIdentity(s: State, op: Op, id: PeerId) {
    || ((op.SetCircle? || op.Rename? || op.Describe? || op.ExpireDescription?) && op.id == id)
    || (op.ClaimRole? && op.id in s.peers
        && (op.id == id || (id in s.mappings && s.mappings[id].role == RoleOrchestrator
                            && s.mappings[id].circle ==
                               if op.about.Some? && op.about.value != "" then op.about.value else s.peers[op.id].peer.circle)))
  }

  lemma RegistrationKeepsIdentity(s: State, op: Op, s': State, id: PeerId)
    requires op.Allocate? && Inv(s) && Step(s, op, s')
    requires id in s.mappings && id in s'.mappings
    ensures SameIdentity(s.mappings[id], s'.mappings[id])
  {
    hide Allocated, GuardAccepts, Backed, SameIdentity, RegisteredMove;
    var r :| Allocated(s, op.p, op.env, op.now, s', r);
    RegistrationKeeps(s, op.p, op.env, op.now, s', r);
  }

  /** The operations that rewrite one row after an edit of its record. */
  predicate EditsRow(op: Op) {
    op.SetCircle? || op.Rename? || op.Describe? || op.ExpireDescription? || op.UpdateModel?
  }

  predicate SameSeat(a: Mapping, b: Mapping) {
    a.role == b.role && a.circle == b.circle
  }

  lemma MoveSparesOthers(s: State, edited: PeerId, circle: string, now: Time, id: PeerId)
    requires id in s.mappings
    ensures id in CircleMoved(s, edited, circle, now).mappings
    ensures id != edited ==> CircleMoved(s, edited, circle, now).mappings[id] == s.mappings[id]
    ensures CircleMoved(s, edited, circle, now).mappings[id].role == s.mappings[id].role
  {
  }

  lemma RenameSparesOthers(s: State, edited: PeerId, name: string, now: Time, id: PeerId)
    requires id in s.mappings
    ensures id in Renamed(s, edited, name, now).mappings
    ensures id != edited ==> Renamed(s, edited, name, now).mappings[id] == s.mappings[id]
    ensures SameSeat(Renamed(s, edited, name, now).mappings[id], s.mappings[id])
  {
    hide RenameAllowed, Namesakes;
  }

  lemma DescriptionSparesOthers(s: State, edited: PeerId, text: string, ttl: Time, now: Time, id: PeerId)
    requires id in s.mappings
    ensures id in Described(s, edited, text, now).mappings && id in DescriptionExpired(s, edited, ttl, now).mappings
    ensures id != edited ==> Described(s, edited, text, now).mappings[id] == s.mappings[id]
    ensures id != edited ==> DescriptionExpired(s, edited, ttl, now).mappings[id] == s.mappings[id]
    ensures SameSeat(Described(s, edited, text, now).mappings[id], s.mappings[id])
    ensures SameSeat(DescriptionExpired(s, edited, ttl, now).mappings[id], s.mappings[id])
  {
  }

  lemma ModelSparesIdentity(s: State, edited: PeerId, model: string, now: Time, id: PeerId)
    requires id in s.mappings
    ensures id in ModelUpdated(s, edited, model, now).mappings
    ensures SameIdentity(s.mappings[id], ModelUpdated(s, edited, model, now).mappings[id])
  {
  }

  /** Such an edit leaves every other row alone and the role of its own; a circle changes by the move only. */
  lemma RowEditSparesRole(s: State, op: Op, s': State, id: PeerId)
    requires EditsRow(op) && Step(s, op, s')
    requires id in s.mappings && id in s'.mappings
    ensures s'.mappings[id].role == s.mappings[id].role
    ensures !(op.SetCircle? && op.id == id) ==> s'.mappings[id].circle == s.mappings[id].circle
    ensures op.id != id || op.UpdateModel? ==> SameIdentity(s.mappings[id], s'.mappings[id])
  {
    hide CircleMoved, Renamed, Described, DescriptionExpired, ModelUpdated;
    match op
    case SetCircle(edited, circle, now) => MoveSparesOthers(s, edited, circle, now, id);
    case Rename(edited, name, now) => RenameSparesOthers(s, edited, name, now, id);
    case Describe(edited, text, now) => DescriptionSparesOthers(s, edited, text, 0, now, id);
    case ExpireDescription(edited, ttl, now) => DescriptionSparesOthers(s, edited, "", ttl, now, id);
    case UpdateModel(edited, model, now) => ModelSparesIdentity(s, edited, model, now, id);
  }

  lemma ClaimKeepsIdentity(s: State, op: Op, s': State, id: PeerId)
    requires op.ClaimRole? && Step(s, op, s') && !EditsIdentity(s, op, id)
    requires id in s.mappings && id in s'.mappings
    ensures SameIdentity(s.mappings[id], s'.mappings[id])
  {
    hide Blockers, FormerHolders;
  }

  lemma StepKeepsIdentity(s: State, op: Op, s': State, id: PeerId)
    requires Inv(s) && Step(s, op, s') && !EditsIdentity(s, op, id)
    requires id in s.mappings && id in s'.mappings
    ensures SameIdentity(s.mappings[id], s'.mappings[id])
  {
    if op.Allocate? {
      hide Step, Inv;
      RegistrationKeepsIdentity(s, op, s', id);
    } else if EditsRow(op) {
      hide Step, Inv;
      RowEditSparesRole(s, op, s', id);
    } else if op.ClaimRole? {
      hide Step, Inv;
      ClaimKeepsIdentity(s, op, s', id);
    } else {
      hide Inv, Transitioned, RemovableIds, Apply;
    }
  }

  /** A durable identity survives everything but an explicit edit of its own or a role claim that concerns it,
      whatever happens to others: in particular registering under a known id, live, offline or known only from its row,
      never changes its name, circle, role, backend or description. */
  lemma {:induction false} IdentityChangesOnlyByEdit(states: seq<State>, ops: seq<Op>, i: nat, j: nat, id: PeerId)
    requires Run(states, ops) && i <= j < |states|
    requires forall k :: i <= k <= j ==> id in states[k].mappings
    requires forall k :: i <= k < j ==> !EditsIdentity(states[k], ops[k], id)
    ensures SameIdentity(states[i].mappings[id], states[j].mappings[id])
  {
    hide Step, Inv, EditsIdentity;
    if i < j {
      IdentityChangesOnlyByEdit(states, ops, i, j - 1, id);
      ReachableStatesAgree(states, ops, j - 1);
      StepKeepsIdentity(states[j - 1], ops[j - 1], states[j], id);
    }
  }

  // ---------------------------------------------------------------------------
  // Holding the orchestrator role
  // ---------------------------------------------------------------------------

  /** A claim by another peer about this circle, or moving id out of it. */
  predicate MayUnseat(s: State, op: Op, id: PeerId, circle: string) {
    || (op.ClaimRole? && op.id != id && op.id in s.peers
        && circle == if op.about.Some? && op.about.value != "" then op.about.value else s.peers[op.id].peer.circle)
    || (op.SetCircle? && op.id == id)
  }

  /** Another record comes to hold the role in the circle: by claim, by move or by registering. */
  ghost predicate AnotherGains(s: State, s': State, target: PeerId, circle: string) {
    exists o :: o in s'.peers && o != target && HoldsRole(s', o, circle) && !HoldsRole(s, o, circle)
  }

  predicate HoldsRole(s: State, id: PeerId, circle: string) {
    id in s.peers && s.peers[id].peer.role == RoleOrchestrator && s.peers[id].peer.circle == circle
  }

  lemma ClaimKeepsSeat(s: State, op: Op, s': State, id: PeerId)
    requires id in s.mappings
    requires op.ClaimRole? && Step(s, op, s') && !MayUnseat(s, op, id, s.mappings[id].circle)
    requires id in s'.mappings && s.mappings[id].role == RoleOrchestrator
    ensures s'.mappings[id].role == RoleOrchestrator && s'.mappings[id].circle == s.mappings[id].circle
  {
    hide Blockers, FormerHolders;
  }

  lemma StepKeepsSeat(s: State, op: Op, s': State, id: PeerId, circle: string)
    requires Inv(s) && Inv(s') && Step(s, op, s') && !MayUnseat(s, op, id, circle)
    requires HoldsRole(s, id, circle) && id in s'.peers
    ensures HoldsRole(s', id, circle)
  {
    assert Backed(id, s.peers[id], s.mappings) && Backed(id, s'.peers[id], s'.mappings);
    hide Step, Inv;
    if EditsRow(op) {
      RowEditSparesRole(s, op, s', id);
    } else if op.ClaimRole? {
      ClaimKeepsSeat(s, op, s', id);
    } else {
      StepKeepsIdentity(s, op, s', id);
    }
  }

  lemma {:induction false} SeatIsKept(states: seq<State>, ops: seq<Op>, i: nat, j: nat, id: PeerId, circle: string)
    requires Run(states, ops) && i <= j < |states|
    requires HoldsRole(states[i], id, circle) && AloneInRole(states[i], id, circle)
    requires forall k :: i <= k <= j ==> id in states[k].peers
    requires forall k :: i <= k < j ==> !MayUnseat(states[k], ops[k], id, circle) && !AnotherGains(states[k], states[k + 1], id, circle)
    ensures HoldsRole(states[j], id, circle) && AloneInRole(states[j], id, circle)
  {
    hide Step, Inv, MayUnseat, HoldsRole, AnotherGains, AloneInRole;
    if i < j {
      SeatIsKept(states, ops, i, j - 1, id, circle);
      ReachableStatesAgree(states, ops, j - 1);
      ReachableStatesAgree(states, ops, j);
      StepKeepsSeat(states[j - 1], ops[j - 1], states[j], id, circle);
      AloneUnlessGained(states[j - 1], states[j], id, circle);
    }
  }

  lemma AloneUnlessGained(s: State, s': State, id: PeerId, circle: string)
    requires AloneInRole(s, id, circle) && !AnotherGains(s, s', id, circle)
    ensures AloneInRole(s', id, circle)
  {
    forall o | o in s'.peers && o != id && s'.peers[o].peer.circle == circle
      ensures s'.peers[o].peer.role != RoleOrchestrator
    {
      assert HoldsRole(s', o, circle) ==> HoldsRole(s, o, circle);
    }
  }

  /** From a successful claim about its own circle on, every lookup in the circle finds the claimant, in every later
      state in which it is live and fresh or connected, until another peer gains the role there or makes a claim
      about it, or the claimant is moved or leaves. */
  lemma ClaimantIsFound(states: seq<State>, ops: seq<Op>, i: nat, j: nat, circle: string, connected: set<PeerId>,
                        tolerance: Time, now: Time, out: ClaimOutcome, r: Option<PeerId>)
    requires Run(states, ops) && i < j < |states| && ops[i].ClaimRole?
    requires ops[i].id in states[i].peers && states[i].peers[ops[i].id].peer.circle == circle
    requires ops[i].about == None || ops[i].about == Some("") || ops[i].about == Some(circle)
    requires ClaimDecided(states[i], ops[i].id, ops[i].about, ops[i].connected, ops[i].tolerance, ops[i].now, states[i + 1], out)
    requires out.Claimed?
    requires forall k :: i < k <= j ==> ops[i].id in states[k].peers
    requires forall k :: i < k < j ==>
               !MayUnseat(states[k], ops[k], ops[i].id, circle) && !AnotherGains(states[k], states[k + 1], ops[i].id, circle)
    requires states[j].peers[ops[i].id].state in {Online, Busy}
    requires (states[j].peers[ops[i].id].peer.lastSeen.Some? && now - states[j].peers[ops[i].id].peer.lastSeen.value <= tolerance)
             || ops[i].id in connected
    requires OrchestratorFound(states[j], circle, connected, tolerance, now, r)
    ensures r == Some(ops[i].id)
  {
    hide Step, Inv, MayUnseat, AnotherGains, OrchestratorFound;
    var id := ops[i].id;
    ReachableStatesAgree(states, ops, i);
    ReachableStatesAgree(states, ops, j);
    ClaimSeats(states[i], id, ops[i].about, ops[i].connected, ops[i].tolerance, ops[i].now, states[i + 1], out);
    SeatIsKept(states, ops, i + 1, j, id, circle);
    LookupFindsTheOne(states[j], id, connected, tolerance, now, r);
  }

  lemma ClaimSeats(s: State, id: PeerId, about: Option<string>, connected: set<PeerId>, tolerance: Time, now: Time,
                   s': State, out: ClaimOutcome)
    requires Inv(s) && id in s.peers && (about == None || about == Some("") || about == Some(s.peers[id].peer.circle))
    requires ClaimDecided(s, id, about, connected, tolerance, now, s', out) && out.Claimed?
    ensures HoldsRole(s', id, s.peers[id].peer.circle) && AloneInRole(s', id, s.peers[id].peer.circle)
  {
    hide Blockers, FormerHolders, Inv;
    ClaimIsExclusiveExactlyWhen(s, id, about, connected, tolerance, now, s', out);
  }

  // ---------------------------------------------------------------------------
  // Probe-then-commit removal
  // ---------------------------------------------------------------------------

  /** Offline and last seen before the cutoff in both looks, same pid and pane in both, an unset one reading as 0 or
      empty, and the probe in between found nothing. */
  ghost predicate DeadInBothLooks(before: State, early: Time, after: State, cutoff: Time, evidence: set<PeerId>, id: PeerId) {
    && id in before.peers && id in after.peers && id !in evidence
    && before.peers[id].state == Offline && after.peers[id].state == Offline
    && before.peers[id].peer.lastSeen.Some? && before.peers[id].peer.lastSeen.value < early
    && after.peers[id].peer.lastSeen.Some? && after.peers[id].peer.lastSeen.value < cutoff
    && (if before.peers[id].peer.agentPid.Some? then before.peers[id].peer.agentPid.value else 0)
         == (if after.peers[id].peer.agentPid.Some? then after.peers[id].peer.agentPid.value else 0)
    && (if before.peers[id].peer.pane.Some? then before.peers[id].peer.pane.value else "")
         == (if after.peers[id].peer.pane.Some? then after.peers[id].peer.pane.value else "")
  }

  /** With any operations between snapshot and commit, reaping removes exactly the records dead in both looks,
      record and row together, and leaves a soft tombstone for each. */
  lemma ReapRemovesExactlyTheDead(states: seq<State>, ops: seq<Op>, i: nat, j: nat, early: Time, id: PeerId)
    requires Run(states, ops) && i <= j < |ops|
    requires ops[j].ReapCommit? && ops[j].stale == StaleSnapshot(states[i], early)
    requires id in states[j].peers
    ensures id !in states[j + 1].peers <==> DeadInBothLooks(states[i], early, states[j], ops[j].cutoff, ops[j].evidence, id)
    ensures id !in states[j + 1].peers <==> id !in states[j + 1].mappings
    ensures id !in states[j + 1].peers ==>
              id in states[j + 1].retired && states[j + 1].retired[id] == Retirement(ops[j].now, false)
    ensures id in states[j + 1].peers ==>
              states[j + 1].peers[id] == states[j].peers[id] &&
              (id in states[j + 1].retired <==> id in states[j].retired) &&
              (id in states[j].retired ==> states[j + 1].retired[id] == states[j].retired[id])
  {
    ReachableStatesAgree(states, ops, j);
    assert Step(states[j], ops[j], states[j + 1]);
    assert Backed(id, states[j].peers[id], states[j].mappings);
  }

  /** Eviction is the same but writes no tombstone at all. */
  lemma EvictRemovesExactlyTheDead(states: seq<State>, ops: seq<Op>, i: nat, j: nat, early: Time, id: PeerId)
    requires Run(states, ops) && i <= j < |ops|
    requires ops[j].EvictCommit? && ops[j].stale == StaleSnapshot(states[i], early)
    requires id in states[j].peers
    ensures id !in states[j + 1].peers <==> DeadInBothLooks(states[i], early, states[j], ops[j].cutoff, ops[j].evidence, id)
    ensures id !in states[j + 1].peers <==> id !in states[j + 1].mappings
    ensures states[j + 1].retired == states[j].retired
    ensures id in states[j + 1].peers ==> states[j + 1].peers[id] == states[j].peers[id]
  {
    ReachableStatesAgree(states, ops, j);
    assert Step(states[j], ops[j], states[j + 1]);
    assert Backed(id, states[j].peers[id], states[j].mappings);
  }
}
