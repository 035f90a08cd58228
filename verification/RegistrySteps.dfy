/** The registry as a transition system: one step per critical section, and what every step keeps. */
module RegistrySteps {
  import opened Fsm
  import opened Peers
  import opened RegistrySpec
  import opened RoleClaims

  /** One critical section with its arguments. By-name operations appear with the id their name resolved to.
      The removal and demotion commits carry whatever an earlier snapshot and its probes produced. */
  datatype Op =
    | Allocate(p: Params, env: Env, now: Time)
    | MarkOffline(id: PeerId, terminal: bool, hard: bool, now: Time)
    | UpdateStatus(id: PeerId, status: PeerStatus, now: Time)
    | UpdateTurn(id: PeerId, turn: TurnState, now: Time)
    | UpdateTmux(id: PeerId, tmux: string)
    | SetCircle(id: PeerId, circle: string, now: Time)
    | Rename(id: PeerId, name: string, now: Time)
    | ExpireDescription(id: PeerId, ttl: Time, now: Time)
    | Describe(id: PeerId, text: string, now: Time)
    | Touch(id: PeerId, now: Time)
    | UpdateModel(id: PeerId, model: string, now: Time)
    | MergeMetadata(id: PeerId, metadata: Metadata, now: Time)
    | Unregister(id: PeerId)
    | ClaimRole(id: PeerId, about: Option<string>, connected: set<PeerId>, tolerance: Time, now: Time)
    | Demote(candidates: set<PeerId>, now: Time)
    | RepairBusy(cutoff: Time, now: Time)
    | ReapCommit(stale: map<PeerId, Peer>, evidence: set<PeerId>, cutoff: Time, now: Time)
    | EvictCommit(stale: map<PeerId, Peer>, evidence: set<PeerId>, cutoff: Time)
    | PruneRetired(cutoff: Time)

  ghost predicate Step(s: State, op: Op, s': State) {
    match op
    case Allocate(p, env, now) => MintIsFresh(s, env) && exists r :: Allocated(s, p, env, now, s', r)
    case MarkOffline(id, terminal, hard, now) => s' == MarkedOffline(s, id, terminal, hard, now)
    case UpdateStatus(id, status, now) => s' == StatusUpdated(s, id, status, now)
    case UpdateTurn(id, turn, now) => s' == TurnUpdated(s, id, turn, now)
    case UpdateTmux(id, tmux) => s' == TmuxUpdated(s, id, tmux)
    case SetCircle(id, circle, now) => s' == CircleMoved(s, id, circle, now)
    case Rename(id, name, now) => s' == Renamed(s, id, name, now)
    case ExpireDescription(id, ttl, now) => s' == DescriptionExpired(s, id, ttl, now)
    case Describe(id, text, now) => s' == Described(s, id, text, now)
    case Touch(id, now) => s' == Touched(s, id, now)
    case UpdateModel(id, model, now) => s' == ModelUpdated(s, id, model, now)
    case MergeMetadata(id, metadata, now) => s' == MetadataMerged(s, id, metadata, now)
    case Unregister(id) => s' == PeerRemoved(s, id)
    case ClaimRole(id, about, connected, tolerance, now) =>
      id in s.peers && exists out :: ClaimDecided(s, id, about, connected, tolerance, now, s', out)
    case Demote(candidates, now) => s' == Demoted(s, candidates, now)
    case RepairBusy(cutoff, now) => s' == BusyRepaired(s, cutoff, now)
    case ReapCommit(stale, evidence, cutoff, now) => s' == Reaped(s, stale, evidence, cutoff, now)
    case EvictCommit(stale, evidence, cutoff) => s' == Evicted(s, stale, evidence, cutoff)
    case PruneRetired(cutoff) => s' == Pruned(s, cutoff)
  }

  // ---------------------------------------------------------------------------
  // Steps other than registration
  // ---------------------------------------------------------------------------

  /** A record moved along an edge that revives nothing; its pane is its own. */
  ghost predicate TameMove(a: Record, b: Record) {
    && InLockstep(b)
    && b.peer.id == a.peer.id && b.peer.pane == a.peer.pane
    && (a.state == b.state || Edge(a.state, b.state))
    && (!Live(a.state) ==> !Live(b.state))
    && (a.state == Retired ==> b.state == Retired)
  }

  /** Either the surviving rows are as they were, or the table is dirty under a new version. */
  ghost predicate WritesMarked(s: State, s': State) {
    || (s'.dirty == s.dirty && s'.version == s.version &&
        forall id :: id in s'.mappings ==> id in s.mappings && s'.mappings[id] == s.mappings[id])
    || (s'.dirty && s'.version > s.version)
  }

  /** Rows leave only together with their records. */
  ghost predicate RowsLeaveWithRecords(s: State, s': State) {
    forall id :: id in s.mappings && id !in s'.mappings ==> id in s.peers && id !in s'.peers
  }

  /** What every step except registration does: no record appears or revives, no row appears. */
  ghost predicate Tame(s: State, s': State) {
    && Inv(s')
    && s'.peers.Keys <= s.peers.Keys
    && s'.mappings.Keys <= s.mappings.Keys
    && (forall id :: id in s'.peers ==> TameMove(s.peers[id], s'.peers[id]))
    && WritesMarked(s, s')
    && RowsLeaveWithRecords(s, s')
  }

  lemma TransitionIsTame(r: Record, e: LifecycleEvent, now: Time)
    requires InLockstep(r)
    requires e != Reconnect && e != ReclaimWithLiveAgent
    ensures TameMove(r, Transitioned(r, e, now))
  {
    assert Apply(r.state, e).Next? ==> Transitioned(r, e, now).state == Apply(r.state, e).state;
  }

  /** One record moved tamely, its row possibly rewritten to match. */
  lemma OneRecordIsTame(s: State, s': State, id: PeerId)
    requires Inv(s) && id in s.peers && id in s'.peers
    requires s'.peers == s.peers[id := s'.peers[id]] && TameMove(s.peers[id], s'.peers[id])
    requires || (s'.mappings == s.mappings && s'.dirty == s.dirty && s'.version == s.version)
             || (id in s'.mappings && s'.mappings == s.mappings[id := s'.mappings[id]] && s'.dirty && s'.version > s.version)
    requires id in s'.mappings && s'.mappings[id].id == id && Agree(s'.peers[id].peer, s'.mappings[id])
    ensures Tame(s, s')
  {
  }

  lemma UnchangedIsTame(s: State, s': State)
    requires Inv(s)
    requires s'.peers == s.peers && s'.mappings == s.mappings && s'.dirty == s.dirty && s'.version == s.version
    ensures Tame(s, s')
  {
  }

  lemma MarkOfflineIsTame(s: State, id: PeerId, terminal: bool, hard: bool, now: Time)
    requires Inv(s)
    ensures Tame(s, MarkedOffline(s, id, terminal, hard, now))
  {
    var s' := MarkedOffline(s, id, terminal, hard, now);
    var e := if terminal then TerminalOffline else TransportDisconnect;
    if id in s.peers && Apply(s.peers[id].state, e).Next? {
      TransitionIsTame(s.peers[id], e, now);
      OneRecordIsTame(s, s', id);
    } else {
      UnchangedIsTame(s, s');
    }
  }

  lemma UpdateStatusIsTame(s: State, id: PeerId, status: PeerStatus, now: Time)
    requires Inv(s)
    ensures Tame(s, StatusUpdated(s, id, status, now))
  {
    if id in s.peers {
      TransitionIsTame(s.peers[id], StatusEvent(status), now);
      OneRecordIsTame(s, StatusUpdated(s, id, status, now), id);
    } else {
      UnchangedIsTame(s, s);
    }
  }

  lemma LiveEditsAreTame(s: State, id: PeerId, turn: TurnState, tmux: string, metadata: Metadata, now: Time)
    requires Inv(s)
    ensures Tame(s, TurnUpdated(s, id, turn, now))
    ensures Tame(s, TmuxUpdated(s, id, tmux))
    ensures Tame(s, Touched(s, id, now))
    ensures Tame(s, MetadataMerged(s, id, metadata, now))
  {
    if id in s.peers {
      OneRecordIsTame(s, TurnUpdated(s, id, turn, now), id);
      OneRecordIsTame(s, TmuxUpdated(s, id, tmux), id);
      OneRecordIsTame(s, Touched(s, id, now), id);
      OneRecordIsTame(s, MetadataMerged(s, id, metadata, now), id);
    } else {
      UnchangedIsTame(s, s);
    }
  }

  lemma SetCircleIsTame(s: State, id: PeerId, circle: string, now: Time)
    requires Inv(s)
    ensures Tame(s, CircleMoved(s, id, circle, now))
  {
    if id in s.peers {
      OneRecordIsTame(s, CircleMoved(s, id, circle, now), id);
    } else {
      UnchangedIsTame(s, s);
    }
  }

  lemma UpdateModelIsTame(s: State, id: PeerId, model: string, now: Time)
    requires Inv(s)
    ensures Tame(s, ModelUpdated(s, id, model, now))
  {
    if id in s.peers && s.peers[id].peer.model != Some(model) {
      OneRecordIsTame(s, ModelUpdated(s, id, model, now), id);
    } else {
      UnchangedIsTame(s, s);
    }
  }

  lemma DescribeIsTame(s: State, id: PeerId, text: string, now: Time)
    requires Inv(s)
    ensures Tame(s, Described(s, id, text, now))
  {
    if id in s.peers {
      OneRecordIsTame(s, Described(s, id, text, now), id);
    } else {
      UnchangedIsTame(s, s);
    }
  }

  lemma ExpireDescriptionIsTame(s: State, id: PeerId, ttl: Time, now: Time)
    requires Inv(s)
    ensures Tame(s, DescriptionExpired(s, id, ttl, now))
  {
    var s' := DescriptionExpired(s, id, ttl, now);
    if s'.peers == s.peers && s'.mappings == s.mappings && s'.version == s.version {
      UnchangedIsTame(s, s');
    } else {
      OneRecordIsTame(s, s', id);
    }
  }

  lemma RenameIsTame(s: State, id: PeerId, name: string, now: Time)
    requires Inv(s)
    ensures Tame(s, Renamed(s, id, name, now))
  {
    if RenameAllowed(s, id, name) {
      var ghosts := Namesakes(s, id, name);
      var thinned := s.(peers := s.peers - ghosts);
      assert id in thinned.peers;
      var s' := Renamed(s, id, name, now);
      OneRecordIsTame(thinned, s', id);
    } else {
      UnchangedIsTame(s, s);
    }
  }

  /** Records and rows of `gone` leave together. */
  lemma DroppedIsTame(s: State, s': State, gone: set<PeerId>)
    requires Inv(s) && gone <= s.peers.Keys
    requires s'.peers == s.peers - gone && s'.mappings == s.mappings - gone
    requires s'.dirty == s.dirty && s'.version == s.version
    ensures Tame(s, s')
  {
  }

  lemma UnregisterIsTame(s: State, id: PeerId)
    requires Inv(s)
    ensures Tame(s, PeerRemoved(s, id))
  {
    if id in s.peers {
      DroppedIsTame(s, PeerRemoved(s, id), {id});
    } else {
      UnchangedIsTame(s, s);
    }
  }

  lemma RemovalsAreTame(s: State, stale: map<PeerId, Peer>, evidence: set<PeerId>, cutoff: Time, now: Time)
    requires Inv(s)
    ensures Tame(s, Evicted(s, stale, evidence, cutoff))
    ensures Tame(s, Reaped(s, stale, evidence, cutoff, now))
  {
    var gone := RemovableIds(s, stale, evidence, cutoff);
    DroppedIsTame(s, Evicted(s, stale, evidence, cutoff), gone);
    DroppedIsTame(s, Reaped(s, stale, evidence, cutoff, now), gone);
  }

  lemma DemoteIsTame(s: State, candidates: set<PeerId>, now: Time)
    requires Inv(s)
    ensures Tame(s, Demoted(s, candidates, now))
  {
    forall id | id in s.peers
      ensures TameMove(s.peers[id], Transitioned(s.peers[id], GhostDemote, now))
    {
      TransitionIsTame(s.peers[id], GhostDemote, now);
    }
  }

  lemma RepairBusyIsTame(s: State, cutoff: Time, now: Time)
    requires Inv(s)
    ensures Tame(s, BusyRepaired(s, cutoff, now))
  {
    forall id | id in s.peers && StaleBusy(s.peers[id], cutoff)
      ensures TameMove(s.peers[id], Repaired(s.peers[id], now))
      ensures Repaired(s.peers[id], now).peer == s.peers[id].peer.(status := StatusOnline, turn := TurnIdle, lastSeen := Some(now))
    {
      assert Apply(Busy, Stop) == Next(Online);
    }
  }

  lemma ClaimMovesNobody(s: State, id: PeerId, circle: string, now: Time)
    requires Inv(s) && id in s.peers
    ensures
      var s' := AfterClaim(s, id, circle, now);
      && s'.peers.Keys == s.peers.Keys && s'.mappings.Keys == s.mappings.Keys && s'.dirty && s'.version > s.version
      && forall o :: o in s.peers ==> TameMove(s.peers[o], s'.peers[o])
  {
    hide FormerHolders, Edge, RoleAfter;
    var s' := AfterClaim(s, id, circle, now);
    forall o | o in s.peers ensures TameMove(s.peers[o], s'.peers[o]) {
      assert Backed(o, s.peers[o], s.mappings);
    }
  }

  lemma ClaimIsTame(s: State, id: PeerId, circle: string, now: Time)
    requires Inv(s) && id in s.peers
    ensures Tame(s, AfterClaim(s, id, circle, now))
  {
    hide AfterClaim, Inv, TameMove;
    ClaimKeepsInv(s, id, circle, now);
    ClaimMovesNobody(s, id, circle, now);
  }

  lemma LiveStepsAreTame(s: State, op: Op, s': State)
    requires op.UpdateTurn? || op.UpdateTmux? || op.Touch? || op.MergeMetadata?
    requires Inv(s) && Step(s, op, s')
    ensures Tame(s, s')
  {
    match op
    case UpdateTurn(id, turn, now) => LiveEditsAreTame(s, id, turn, "", map[], now);
    case UpdateTmux(id, tmux) => LiveEditsAreTame(s, id, TurnIdle, tmux, map[], 0);
    case Touch(id, now) => LiveEditsAreTame(s, id, TurnIdle, "", map[], now);
    case MergeMetadata(id, metadata, now) => LiveEditsAreTame(s, id, TurnIdle, "", metadata, now);
  }

  lemma RowStepsAreTame(s: State, op: Op, s': State)
    requires op.SetCircle? || op.Rename? || op.ExpireDescription?
    requires Inv(s) && Step(s, op, s')
    ensures Tame(s, s')
  {
    match op
    case SetCircle(id, circle, now) => SetCircleIsTame(s, id, circle, now);
    case Rename(id, name, now) => RenameIsTame(s, id, name, now);
    case ExpireDescription(id, ttl, now) => ExpireDescriptionIsTame(s, id, ttl, now);
  }

  lemma ByNameStepsAreTame(s: State, op: Op, s': State)
    requires op.Describe? || op.UpdateModel? || op.ClaimRole?
    requires Inv(s) && Step(s, op, s')
    ensures Tame(s, s')
  {
    hide Inv, Tame, AfterClaim, Blockers, FormerHolders, Described, ModelUpdated;
    match op
    case Describe(id, text, now) => DescribeIsTame(s, id, text, now);
    case UpdateModel(id, model, now) => UpdateModelIsTame(s, id, model, now);
    case ClaimRole(id, about, _, _, now) =>
      ClaimIsTame(s, id, ClaimCircle(s.peers[id].peer, about), now);
      UnchangedIsTame(s, s);
  }

  lemma LifecycleStepsAreTame(s: State, op: Op, s': State)
    requires op.MarkOffline? || op.UpdateStatus? || op.Demote? || op.RepairBusy?
    requires Inv(s) && Step(s, op, s')
    ensures Tame(s, s')
  {
    match op
    case MarkOffline(id, terminal, hard, now) => MarkOfflineIsTame(s, id, terminal, hard, now);
    case UpdateStatus(id, status, now) => UpdateStatusIsTame(s, id, status, now);
    case Demote(candidates, now) => DemoteIsTame(s, candidates, now);
    case RepairBusy(cutoff, now) => RepairBusyIsTame(s, cutoff, now);
  }

  lemma RemovalStepsAreTame(s: State, op: Op, s': State)
    requires op.Unregister? || op.ReapCommit? || op.EvictCommit? || op.PruneRetired?
    requires Inv(s) && Step(s, op, s')
    ensures Tame(s, s')
  {
    match op
    case Unregister(id) => UnregisterIsTame(s, id);
    case ReapCommit(stale, evidence, cutoff, now) => RemovalsAreTame(s, stale, evidence, cutoff, now);
    case EvictCommit(stale, evidence, cutoff) => RemovalsAreTame(s, stale, evidence, cutoff, 0);
    case PruneRetired(cutoff) => UnchangedIsTame(s, Pruned(s, cutoff));
  }

  /** Every step but registration is tame. */
  lemma NonAllocationIsTame(s: State, op: Op, s': State)
    requires Inv(s) && !op.Allocate? && Step(s, op, s')
    ensures Tame(s, s')
  {
    if op.UpdateTurn? || op.UpdateTmux? || op.Touch? || op.MergeMetadata? {
      LiveStepsAreTame(s, op, s');
    } else if op.SetCircle? || op.Rename? || op.ExpireDescription? {
      RowStepsAreTame(s, op, s');
    } else if op.Describe? || op.UpdateModel? || op.ClaimRole? {
      ByNameStepsAreTame(s, op, s');
    } else if op.MarkOffline? || op.UpdateStatus? || op.Demote? || op.RepairBusy? {
      LifecycleStepsAreTame(s, op, s');
    } else {
      RemovalStepsAreTame(s, op, s');
    }
  }
}
