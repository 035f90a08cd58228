/** The peer registry: its critical sections as they run, each proved against RegistrySpec.
    Map iterations pick any remaining key; probe answers and clock readings are arguments. */
module Registries {
  import opened Fsm
  import opened Peers
  import opened Naming
  import opened Resolution
  import opened RegistrySpec
  import opened RoleClaims
  import opened Collections
  import opened RegistrySteps
  import opened RegistrationLaws
  import opened Flush

  class Registry {
    var peers: map<PeerId, Record>
    var mappings: map<PeerId, Mapping>
    var retired: map<PeerId, Retirement>
    var mappingsDirty: bool
    var mappingsVersion: nat
    var descriptionSetAt: map<PeerId, Time>

    ghost function Snapshot(): State
      reads this
    {
      State(peers, mappings, retired, mappingsDirty, mappingsVersion, descriptionSetAt)
    }

    ghost predicate Valid()
      reads this
    {
      Inv(Snapshot())
    }

    /** NewRegistry: hydrate the rows (a later row of the same id wins) and the tombstones still in their window. */
    constructor (rows: seq<Mapping>, tombstones: map<PeerId, Retirement>)
      ensures Init(Snapshot()) && Valid()
      ensures retired == tombstones
      ensures mappings == Hydrated(rows)
    {
      peers, mappings, retired := map[], map[], tombstones;
      mappingsDirty, mappingsVersion, descriptionSetAt := false, 0, map[];
      new;
      for n := 0 to |rows|
        invariant peers == map[] && retired == tombstones
        invariant !mappingsDirty && mappingsVersion == 0 && descriptionSetAt == map[]
        invariant mappings == Hydrated(rows[..n])
      {
        assert rows[..n + 1][..n] == rows[..n];
        mappings := mappings[rows[n].id := rows[n]];
      }
      assert rows[..|rows|] == rows;
      HydratedRows(rows);
    }

    method MarkMappingsDirty()
      modifies this`mappingsDirty, this`mappingsVersion
      ensures Snapshot() == MarkedDirty(old(Snapshot()))
    {
      mappingsDirty := true;
      mappingsVersion := mappingsVersion + 1;
    }

    // -------------------------------------------------------------------------
    // Lifecycle
    // -------------------------------------------------------------------------

    method MarkOffline(id: PeerId, terminal: bool, hardRetire: bool, now: Time)
      requires Valid()
      modifies this`peers, this`retired
      ensures Snapshot() == MarkedOffline(old(Snapshot()), id, terminal, hardRetire, now)
      ensures Valid()
    {
      hide Inv, TameMove, WritesMarked, RowsLeaveWithRecords;
      MarkOfflineIsTame(Snapshot(), id, terminal, hardRetire, now);
      if id !in peers {
        if terminal {
          retired := retired[id := Retirement(now, hardRetire)];
        }
        return;
      }
      var event := if terminal then TerminalOffline else TransportDisconnect;
      var ps := peers[id];
      var next := Apply(ps.state, event);
      if next.Illegal? {
        return;
      }
      var status := ToStatus(next.state);
      var peer := ps.peer;
      if status.Reported? {
        peer := peer.(status := status.status);
      }
      peer := peer.(lastSeen := Some(now));
      peers := peers[id := Record(peer, next.state)];
      if terminal {
        retired := retired[id := Retirement(now, hardRetire)];
      }
    }

    /** Reports whether the redelivery branch was taken: it never is. */
    method UpdateStatus(id: PeerId, status: PeerStatus, now: Time) returns (redeliver: bool)
      requires Valid()
      modifies this`peers
      ensures Snapshot() == StatusUpdated(old(Snapshot()), id, status, now)
      ensures !redeliver
      ensures Valid()
    {
      hide Inv, TameMove, WritesMarked, RowsLeaveWithRecords;
      UpdateStatusIsTame(Snapshot(), id, status, now);
      redeliver := false;
      if id in peers {
        var ps := peers[id];
        var next := Apply(ps.state, StatusEvent(status));
        if next.Next? {
          var wire := ToStatus(next.state);
          var peer := ps.peer;
          if wire.Reported? {
            peer := peer.(status := wire.status);
          }
          peers := peers[id := Record(peer.(lastSeen := Some(now)), next.state)];
          redeliver := (next.state == Online || next.state == Busy) && ps.state == Offline;
        }
      }
    }

    method UpdateTurnState(id: PeerId, turn: TurnState, now: Time)
      requires Valid()
      modifies this`peers
      ensures Snapshot() == TurnUpdated(old(Snapshot()), id, turn, now)
      ensures Valid()
    {
      hide Inv, TameMove, WritesMarked, RowsLeaveWithRecords;
      LiveEditsAreTame(Snapshot(), id, turn, "", map[], now);
      if id in peers {
        peers := peers[id := peers[id].(peer := peers[id].peer.(turn := turn, lastSeen := Some(now)))];
      }
    }

    method UpdateTmuxSession(id: PeerId, tmux: string)
      requires Valid()
      modifies this`peers
      ensures Snapshot() == TmuxUpdated(old(Snapshot()), id, tmux)
      ensures Valid()
    {
      hide Inv, TameMove, WritesMarked, RowsLeaveWithRecords;
      LiveEditsAreTame(Snapshot(), id, TurnUnknown, tmux, map[], 0);
      if id in peers {
        peers := peers[id := peers[id].(peer := peers[id].peer.(tmux := Some(tmux)))];
      }
    }

    // -------------------------------------------------------------------------
    // Edits that keep record and row together
    // -------------------------------------------------------------------------

    method SetCircle(id: PeerId, circle: string, now: Time)
      requires Valid()
      modifies this`peers, this`mappings, this`mappingsDirty, this`mappingsVersion
      ensures Snapshot() == CircleMoved(old(Snapshot()), id, circle, now)
      ensures Valid()
    {
      hide Inv, TameMove, WritesMarked, RowsLeaveWithRecords;
      SetCircleIsTame(Snapshot(), id, circle, now);
      if id !in peers {
        return;
      }
      peers := peers[id := peers[id].(peer := peers[id].peer.(circle := circle))];
      if id in mappings {
        mappings := mappings[id := mappings[id].(circle := circle, updatedAt := now)];
        MarkMappingsDirty();
      }
    }

    /** False when a live peer holds the name; otherwise Offline ghosts of that name and backend are dropped. */
    method UpdateDisplayName(id: PeerId, name: string, now: Time) returns (renamed: bool)
      requires Valid()
      modifies this`peers, this`mappings, this`mappingsDirty, this`mappingsVersion
      ensures Snapshot() == Renamed(old(Snapshot()), id, name, now)
      ensures renamed <==> RenameAllowed(old(Snapshot()), id, name)
      ensures Valid()
    {
      hide Inv, TameMove, WritesMarked, RowsLeaveWithRecords;
      RenameIsTame(Snapshot(), id, name, now);
      if id !in peers {
        return false;
      }
      ghost var namesakes := Namesakes(Snapshot(), id, name);
      var toEvict: set<PeerId> := {};
      var todo := peers.Keys;
      while todo != {}
        invariant todo <= peers.Keys
        invariant toEvict == namesakes - todo
        invariant forall o :: o in toEvict ==> peers[o].state == Offline
        decreases todo
      {
        var o :| o in todo;
        if o != id && peers[o].peer.name == name && peers[o].peer.backend == peers[id].peer.backend {
          if peers[o].state == Offline {
            toEvict := toEvict + {o};
          } else {
            assert o in namesakes;
            return false;
          }
        }
        todo := todo - {o};
      }
      assert toEvict == namesakes;
      peers := peers - toEvict;
      peers := peers[id := peers[id].(peer := peers[id].peer.(name := name))];
      if id in mappings {
        mappings := mappings[id := mappings[id].(name := name, updatedAt := now)];
        MarkMappingsDirty();
      }
      return true;
    }

    method ApplyDescriptionTTL(id: PeerId, ttl: Time, now: Time)
      requires Valid()
      modifies this`peers, this`mappings, this`mappingsDirty, this`mappingsVersion, this`descriptionSetAt
      ensures Snapshot() == DescriptionExpired(old(Snapshot()), id, ttl, now)
      ensures Valid()
    {
      hide Inv, TameMove, WritesMarked, RowsLeaveWithRecords;
      ExpireDescriptionIsTame(Snapshot(), id, ttl, now);
      if id !in peers || peers[id].peer.description == "" || ttl <= 0 {
        return;
      }
      if id !in descriptionSetAt {
        descriptionSetAt := descriptionSetAt[id := now];
        return;
      }
      if now - descriptionSetAt[id] < ttl {
        return;
      }
      peers := peers[id := peers[id].(peer := peers[id].peer.(description := ""))];
      descriptionSetAt := descriptionSetAt - {id};
      if id in mappings {
        mappings := mappings[id := mappings[id].(description := "", updatedAt := now)];
        MarkMappingsDirty();
      }
    }

    // -------------------------------------------------------------------------
    // Repair passes
    // -------------------------------------------------------------------------

    /** Peers with neither a socket nor an exemption: those to demote outright, and those whose pane is probed first. */
    method DemoteSnapshot(connected: set<PeerId>, acpBroker: bool)
      returns (candidates: set<PeerId>, paneCandidates: map<PeerId, Peer>)
      requires Valid()
      ensures forall id :: id in peers ==>
                var q := peers[id].peer;
                var suspect := peers[id].state in {Online, Busy} && id !in connected
                               && !(acpBroker && "acp" in q.metadata && q.metadata["acp"] != Null)
                               && !("in_process" in q.metadata && q.metadata["in_process"] != Null);
                var paned := q.pane.Some? && q.pane.value != "";
                (id in candidates <==> suspect && !paned) && (id in paneCandidates <==> suspect && paned)
      ensures candidates <= peers.Keys && paneCandidates.Keys <= peers.Keys
      ensures forall id :: id in paneCandidates ==> paneCandidates[id] == peers[id].peer
    {
      candidates, paneCandidates := {}, map[];
      var todo := peers.Keys;
      while todo != {}
        invariant todo <= peers.Keys
        invariant candidates == set id | id in peers && id !in todo && Suspect(peers[id], connected, acpBroker)
                                         && !Paned(peers[id].peer)
        invariant paneCandidates == map id | id in peers && id !in todo && Suspect(peers[id], connected, acpBroker)
                                           && Paned(peers[id].peer) :: peers[id].peer
        decreases todo
      {
        var id :| id in todo;
        if Suspect(peers[id], connected, acpBroker) {
          if Paned(peers[id].peer) {
            paneCandidates := paneCandidates[id := peers[id].peer];
          } else {
            candidates := candidates + {id};
          }
        }
        todo := todo - {id};
      }
      forall id | id in peers ensures peers[id].peer.id == id {
        assert Backed(id, peers[id], mappings);
      }
    }

    /** The commit takes the candidates as they come: it does not look at the connection again. */
    method DemoteCommit(candidates: set<PeerId>, now: Time)
      requires Valid()
      modifies this`peers
      ensures Snapshot() == Demoted(old(Snapshot()), candidates, now)
      ensures Valid()
    {
      hide Inv, TameMove, WritesMarked, RowsLeaveWithRecords;
      DemoteIsTame(Snapshot(), candidates, now);
      var todo := candidates;
      while todo != {}
        invariant todo <= candidates
        invariant peers.Keys == old(peers).Keys
        invariant forall id :: id in peers ==>
          peers[id] == if id in candidates && id !in todo then Transitioned(old(peers)[id], GhostDemote, now) else old(peers)[id]
        decreases todo
      {
        var id :| id in todo;
        if id in peers {
          var next := Apply(peers[id].state, GhostDemote);
          if next.Next? {
            peers := peers[id := Moved(peers[id], next.state, now)];
          }
        }
        todo := todo - {id};
      }
      assert peers == Demoted(old(Snapshot()), candidates, now).peers;
    }

    method RepairStaleBusy(cutoff: Time, now: Time)
      requires Valid()
      modifies this`peers
      ensures Snapshot() == BusyRepaired(old(Snapshot()), cutoff, now)
      ensures Valid()
    {
      hide Inv, TameMove, WritesMarked, RowsLeaveWithRecords;
      RepairBusyIsTame(Snapshot(), cutoff, now);
      var todo := peers.Keys;
      while todo != {}
        invariant todo <= old(peers).Keys && peers.Keys == old(peers).Keys
        invariant forall id :: id in peers ==>
          peers[id] == if id !in todo && StaleBusy(old(peers)[id], cutoff) then Repaired(old(peers)[id], now) else old(peers)[id]
        decreases todo
      {
        var id :| id in todo;
        var ps := peers[id];
        if ps.state == Busy && ps.peer.turn == TurnWorking && LastSeenBefore(ps.peer, cutoff) {
          var next := Apply(ps.state, Stop);
          if next.Next? {
            var moved := Moved(ps, next.state, now);
            peers := peers[id := moved.(peer := moved.peer.(turn := TurnIdle))];
          }
        }
        todo := todo - {id};
      }
      assert peers == BusyRepaired(old(Snapshot()), cutoff, now).peers;
    }

    /** The first look of a removal pass: value copies of the dangling records. */
    method TakeStaleSnapshot(cutoff: Time) returns (stale: map<PeerId, Peer>)
      ensures stale == StaleSnapshot(Snapshot(), cutoff)
      ensures stale == map id | id in peers && peers[id].state == Offline && peers[id].peer.lastSeen.Some?
                                && peers[id].peer.lastSeen.value < cutoff :: peers[id].peer
    {
      stale := map[];
      var todo := peers.Keys;
      while todo != {}
        invariant todo <= peers.Keys
        invariant stale == map id | id in peers && id !in todo && Dangling(peers[id], cutoff) :: peers[id].peer
        decreases todo
      {
        var id :| id in todo;
        if Dangling(peers[id], cutoff) {
          stale := stale[id := peers[id].peer];
        }
        todo := todo - {id};
      }
    }

    /** One candidate of a removal pass, re-validated under the second lock. */
    method RemoveIfDead(id: PeerId, seen: Peer, hasEvidence: bool, cutoff: Time) returns (removed: bool)
      modifies this`peers, this`mappings
      ensures removed <==> id in old(peers) && Dangling(old(peers)[id], cutoff) && !hasEvidence
                           && RuntimeMarker(old(peers)[id].peer) == RuntimeMarker(seen)
      ensures removed <==>
                && id in old(peers) && old(peers)[id].state == Offline && !hasEvidence
                && old(peers)[id].peer.lastSeen.Some? && old(peers)[id].peer.lastSeen.value < cutoff
                && GetOr(old(peers)[id].peer.agentPid, 0) == GetOr(seen.agentPid, 0)
                && GetOr(old(peers)[id].peer.pane, "") == GetOr(seen.pane, "")
      ensures removed ==> peers == old(peers) - {id} && mappings == old(mappings) - {id}
      ensures !removed ==> peers == old(peers) && mappings == old(mappings)
    {
      if id !in peers || peers[id].state != Offline || !LastSeenBefore(peers[id].peer, cutoff) {
        return false;
      }
      if RuntimeMarker(peers[id].peer) != RuntimeMarker(seen) {
        return false;
      }
      if hasEvidence {
        return false;
      }
      peers := peers - {id};
      mappings := mappings - {id};
      return true;
    }

    /** Re-validate and remove; a spared record stays, a reaped one leaves a tombstone. */
    method ReapCommit(stale: map<PeerId, Peer>, evidence: set<PeerId>, cutoff: Time, now: Time)
      returns (done: set<PeerId>)
      requires Valid()
      modifies this`peers, this`mappings, this`retired
      ensures Snapshot() == Reaped(old(Snapshot()), stale, evidence, cutoff, now)
      ensures done == RemovableIds(old(Snapshot()), stale, evidence, cutoff)
      ensures Valid()
    {
      hide Inv, TameMove, WritesMarked, RowsLeaveWithRecords, RuntimeMarker, Dangling, Entombed;
      RemovalsAreTame(Snapshot(), stale, evidence, cutoff, now);
      EntombOneMore(retired, {}, "", now);
      ghost var gone := RemovableIds(Snapshot(), stale, evidence, cutoff);
      done := {};
      var todo := stale.Keys;
      while todo != {}
        invariant todo <= stale.Keys
        invariant done == gone - todo
        invariant peers == old(peers) - done && mappings == old(mappings) - done
        invariant retired == Entombed(old(retired), done, now)
        decreases todo
      {
        var id :| id in todo;
        var removed := RemoveIfDead(id, stale[id], id in evidence, cutoff);
        assert removed <==> id in gone;
        if removed {
          EntombOneMore(old(retired), done, id, now);
          retired := retired[id := Retirement(now, false)];
          done := done + {id};
        }
        todo := todo - {id};
      }
      assert done == gone;
    }

    method EvictCommit(stale: map<PeerId, Peer>, evidence: set<PeerId>, cutoff: Time) returns (evicted: set<PeerId>)
      requires Valid()
      modifies this`peers, this`mappings
      ensures Snapshot() == Evicted(old(Snapshot()), stale, evidence, cutoff)
      ensures evicted == RemovableIds(old(Snapshot()), stale, evidence, cutoff)
      ensures Valid()
    {
      hide Inv, TameMove, WritesMarked, RowsLeaveWithRecords, RuntimeMarker, Dangling;
      RemovalsAreTame(Snapshot(), stale, evidence, cutoff, 0);
      ghost var gone := RemovableIds(Snapshot(), stale, evidence, cutoff);
      evicted := {};
      var todo := stale.Keys;
      while todo != {}
        invariant todo <= stale.Keys
        invariant evicted == gone - todo
        invariant peers == old(peers) - evicted && mappings == old(mappings) - evicted
        decreases todo
      {
        var id :| id in todo;
        var removed := RemoveIfDead(id, stale[id], id in evidence, cutoff);
        assert removed <==> id in gone;
        if removed {
          evicted := evicted + {id};
        }
        todo := todo - {id};
      }
      assert evicted == gone;
    }

    method PruneRetired(cutoff: Time) returns (expired: set<PeerId>)
      requires Valid()
      modifies this`retired
      ensures Snapshot() == Pruned(old(Snapshot()), cutoff)
      ensures expired == old(retired).Keys - retired.Keys
      ensures Valid()
    {
      expired := {};
      var todo := retired.Keys;
      while todo != {}
        invariant todo <= retired.Keys
        invariant expired == set id | id in retired && id !in todo && retired[id].at <= cutoff
        decreases todo
      {
        var id :| id in todo;
        if !(retired[id].at > cutoff) {
          expired := expired + {id};
        }
        todo := todo - {id};
      }
      retired := retired - expired;
      assert retired == Pruned(old(Snapshot()), cutoff).retired;
    }

    // -------------------------------------------------------------------------
    // Deferred flush
    // -------------------------------------------------------------------------

    /** The flusher's first look: what it will write and under which version. */
    method PersistSnapshot() returns (due: bool, version: nat, rows: map<PeerId, Mapping>)
      ensures due == mappingsDirty && version == mappingsVersion
      ensures due ==> rows == mappings
    {
      due, version, rows := mappingsDirty, mappingsVersion, map[];
      if due {
        rows := mappings;
      }
    }

    method PersistCommit(version: nat, success: bool)
      requires Valid()
      modifies this`mappingsDirty
      ensures Snapshot() == Committed(old(Snapshot()), version, success)
      ensures Valid()
    {
      if success && mappingsVersion == version {
        mappingsDirty := false;
      }
    }

    // -------------------------------------------------------------------------
    // Registration
    // -------------------------------------------------------------------------

    /** Everyone but the keeper and live, recently seen orchestrators loses the pane and goes Offline. */
    method ReleasePane(pane: string, keeper: PeerId, now: Time)
      modifies this`peers
      ensures peers == PaneReleased(old(peers), pane, keeper, now)
    {
      hide StickyOrchestrator, RecentlySeen, LiveStatus;
      var todo := peers.Keys;
      while todo != {}
        invariant todo <= old(peers).Keys && peers.Keys == old(peers).Keys
        invariant forall id :: id in peers ==>
          peers[id] == if id !in todo then PaneReleased(old(peers), pane, keeper, now)[id] else old(peers)[id]
        decreases todo
      {
        var id :| id in todo;
        todo := todo - {id};
        var ps := peers[id];
        if id != keeper && HoldsPane(ps.peer, pane) && !StickyOrchestrator(ps.peer, now) {
          var next := Apply(ps.state, PaneDisplaced);
          if next.Next? {
            var moved := Moved(ps, next.state, now);
            peers := peers[id := moved.(peer := moved.peer.(pane := None))];
          }
        }
      }
      assert peers == PaneReleased(old(peers), pane, keeper, now);
    }

    method ReclaimableOffline(name: string, p: Params) returns (id: Option<PeerId>)
      ensures id.Some? ==> id.value in OfflineTakeovers(Snapshot(), p, name)
      ensures id.None? ==> OfflineTakeovers(Snapshot(), p, name) == {}
    {
      ghost var wanted := OfflineTakeovers(Snapshot(), p, name);
      var todo := peers.Keys;
      while todo != {}
        invariant wanted <= todo <= peers.Keys
        decreases todo
      {
        var o :| o in todo;
        if Blocks(peers[o], name, p.circle) && peers[o].state == Offline
           && ClaimMatchesIdentity(peers[o].peer.backend, peers[o].peer.path, p.backend, GetOr(p.path, "")) {
          return Some(o);
        }
        todo := todo - {o};
      }
      return None;
    }

    method FindReusableMapping(name: string, p: Params) returns (id: Option<PeerId>)
      ensures id.Some? ==> id.value in AdoptableRows(Snapshot(), p, name)
      ensures id.None? ==> AdoptableRows(Snapshot(), p, name) == {}
    {
      ghost var wanted := AdoptableRows(Snapshot(), p, name);
      var todo := mappings.Keys;
      while todo != {}
        invariant wanted <= todo <= mappings.Keys
        decreases todo
      {
        var o :| o in todo;
        if mappings[o].name == name && mappings[o].circle == p.circle
           && ClaimMatchesIdentity(mappings[o].backend, GetOr(mappings[o].path, ""), p.backend, GetOr(p.path, "")) {
          return Some(o);
        }
        todo := todo - {o};
      }
      return None;
    }

    /** The claim if it still describes the same identity, else a takeover, else an adopted row, else a mint.
        The empty id marks "none yet", also when a row is stored under it. */
    method ChooseId(name: string, p: Params, env: Env) returns (id: PeerId)
      requires Valid() && MintIsFresh(Snapshot(), env)
      ensures IdChosen(Snapshot(), p, env, name, id)
    {
      hide Inv, Blocks;
      NoEmptyId(Snapshot());
      var claimPath := GetOr(p.path, "");
      id := "";
      if p.claimed.Some? {
        var cid := p.claimed.value;
        if cid in peers {
          if ClaimMatchesIdentity(peers[cid].peer.backend, peers[cid].peer.path, p.backend, claimPath) {
            id := cid;
          }
        } else if cid in mappings {
          if ClaimMatchesIdentity(mappings[cid].backend, GetOr(mappings[cid].path, ""), p.backend, claimPath) {
            id := cid;
          }
        }
      }
      assert id != "" <==> ClaimUsable(Snapshot(), p);
      if id == "" {
        var reclaimed := ReclaimableOffline(name, p);
        if reclaimed.Some? {
          id := reclaimed.value;
        } else {
          var adopted := FindReusableMapping(name, p);
          id := GetOr(adopted, "");
          if id == "" {
            id := env.freshId;
          }
        }
      }
    }

    /** The lifecycle state a reconnect leads to; a retired record needs a lifted tombstone. */
    static method RestartState(state: LifecycleState, recovered: bool) returns (target: LifecycleState)
      ensures target == ReconnectTarget(state, recovered)
    {
      target := state;
      var event := if state == Offline then LifecycleEvent.Reconnect else if state == Busy then Stop else ReclaimWithLiveAgent;
      if state == Offline || state == Busy || (state == Retired && recovered) {
        var n := Apply(state, event);
        if n.Next? {
          target := n.state;
        }
      }
    }

    /** What the claimant says about where it runs replaces what was known, if it says anything. */
    static method RefreshPlace(known: Peer, p: Params) returns (q: Peer)
      ensures q == known.(
                pane := if p.pane.Some? then p.pane else known.pane,
                tmux := if p.tmux.Some? then p.tmux else known.tmux,
                machine := if p.machine != "" && p.machine != "unknown" then p.machine else known.machine)
    {
      q := known;
      if p.pane.Some? {
        q := q.(pane := p.pane);
      }
      if p.tmux.Some? {
        q := q.(tmux := p.tmux);
      }
      if p.machine != "" && p.machine != "unknown" {
        q := q.(machine := p.machine);
      }
    }

    /** The same for what it runs; metadata are merged, the claimant's winning. */
    static method RefreshAgent(known: Peer, p: Params) returns (q: Peer)
      ensures q == known.(
                model := if p.model.Some? then p.model else known.model,
                agentPid := if p.agentPid.Some? then p.agentPid else known.agentPid,
                turn := GetOr(p.turn, known.turn),
                metadata := known.metadata + p.metadata)
    {
      q := known;
      if p.model.Some? {
        q := q.(model := p.model);
      }
      if p.agentPid.Some? {
        q := q.(agentPid := p.agentPid);
      }
      if p.turn.Some? {
        q := q.(turn := p.turn.value);
      }
      var merged := q.metadata + p.metadata;
      if |p.metadata| > 0 {
        q := q.(metadata := merged);
      } else {
        assert p.metadata == map[] && merged == q.metadata;
      }
    }

    static method RefreshRecord(existing: Record, target: LifecycleState, p: Params, ghost recovered: bool, now: Time)
      returns (r: Record)
      requires target == ReconnectTarget(existing.state, recovered)
      ensures r == Refreshed(existing, p, recovered, now)
    {
      hide ReconnectTarget, ToStatus;
      var moved := Moved(existing, target, now);
      var q := RefreshPlace(moved.peer, p);
      q := RefreshAgent(q, p);
      r := moved.(peer := q);
    }

    method Reconnect(id: PeerId, p: Params, recovered: bool, now: Time) returns (r: Registration)
      requires id in peers
      modifies this`peers, this`mappings, this`mappingsDirty, this`mappingsVersion
      ensures ReconnectAnswer(old(Snapshot()), p, recovered, now, id, Snapshot(), r)
    {
      hide Refreshed, ReconnectTarget, PaneReleased;
      var existing := peers[id];
      var target := RestartState(existing.state, recovered);
      var refreshed := RefreshRecord(existing, target, p, recovered, now);
      peers := peers[id := refreshed];
      if p.pane.Some? && p.pane.value != "" {
        ReleasePane(p.pane.value, id, now);
      }
      if id in mappings {
        var m := mappings[id].(updatedAt := now);
        if p.model.Some? {
          m := m.(model := p.model);
        }
        if p.agentPid.Some? {
          m := m.(agentPid := p.agentPid);
        }
        mappings := mappings[id := m];
        MarkMappingsDirty();
      }
      return Registered(id, existing.peer.name);
    }

    method FindDirectParent(p: Params, env: Env, now: Time) returns (found: bool)
      requires WantsPane(p)
      ensures found <==> Hijack(Snapshot(), p, env, now)
    {
      hide DirectParent;
      var todo := peers.Keys;
      while todo != {}
        invariant todo <= peers.Keys
        invariant forall o :: o in peers && o !in todo ==> !DirectParent(peers[o].peer, p, env, now)
        decreases todo
      {
        var o :| o in todo;
        if DirectParent(peers[o].peer, p, env, now) {
          return true;
        }
        todo := todo - {o};
      }
      return false;
    }

    method FreshOrchestratorOnPane(pane: string, now: Time) returns (h: Option<PeerId>)
      ensures h.Some? ==> h.value in StickyHolders(Snapshot(), pane, now)
      ensures h.None? ==> StickyHolders(Snapshot(), pane, now) == {}
    {
      ghost var wanted := StickyHolders(Snapshot(), pane, now);
      var todo := peers.Keys;
      while todo != {}
        invariant wanted <= todo <= peers.Keys
        decreases todo
      {
        var o :| o in todo;
        if HoldsPane(peers[o].peer, pane) && StickyOrchestrator(peers[o].peer, now) {
          return Some(o);
        }
        todo := todo - {o};
      }
      return None;
    }

    method LivePaneHolder(pane: string, env: Env, now: Time) returns (h: Option<PeerId>)
      ensures h.Some? ==> h.value in LiveHolders(Snapshot(), pane, env, now)
      ensures h.None? ==> LiveHolders(Snapshot(), pane, env, now) == {}
    {
      ghost var wanted := LiveHolders(Snapshot(), pane, env, now);
      var todo := peers.Keys;
      while todo != {}
        invariant wanted <= todo <= peers.Keys
        decreases todo
      {
        var o :| o in todo;
        if LiveHolder(peers[o].peer, pane, env, now) {
          return Some(o);
        }
        todo := todo - {o};
      }
      return None;
    }

    /** The claimed pane belongs to a sticky orchestrator of the claimant's own workspace: refresh and reuse it. */
    method ReuseOrchestrator(h: PeerId, p: Params, now: Time) returns (r: Registration)
      requires WantsPane(p) && h in peers
      requires h in StickyHolders(Snapshot(), p.pane.value, now) && SameWorkspace(peers[h].peer, p)
      modifies this`peers
      ensures StickyAnswer(old(Snapshot()), p, now, h, Snapshot(), r)
    {
      hide StickyHolders;
      var q := peers[h].peer.(lastSeen := Some(now));
      if p.model.Some? {
        q := q.(model := p.model);
      }
      if p.turn.Some? {
        q := q.(turn := p.turn.value);
      }
      peers := peers[h := peers[h].(peer := q)];
      return Registered(h, q.name);
    }

    /** The record and row of a registration whose pane is settled; a durable row wins over the request. */
    method CreateRecord(id: PeerId, name: string, p: Params, pane: Option<string>, now: Time) returns (r: Registration)
      modifies this`peers, this`mappings, this`mappingsDirty, this`mappingsVersion
      ensures Snapshot() == Created(old(Snapshot()), id, name, p, pane, now)
      ensures r == Registered(id, RestoredRow(old(Snapshot()), id, name, p, now).name)
    {
      hide PaneReleased, FreshRecord;
      var row := Mapping(id, name, p.circle, p.backend, p.path, p.role, now, "", p.model, p.agentPid);
      if id in mappings {
        var m := mappings[id];
        row := row.(role := m.role, circle := m.circle, description := m.description, name := m.name);
        if p.model.None? {
          row := row.(model := m.model);
        }
      }
      peers := peers[id := FreshRecord(row, p, pane, now)];
      if pane.Some? && pane.value != "" {
        ReleasePane(pane.value, id, now);
      }
      mappings := mappings[id := row];
      MarkMappingsDirty();
      return Registered(id, row.name);
    }

    /** The pane gates, then the new record. */
    method RegisterFresh(id: PeerId, name: string, p: Params, env: Env, now: Time) returns (r: Registration)
      requires id !in peers
      modifies this`peers, this`mappings, this`mappingsDirty, this`mappingsVersion
      ensures FreshRegistered(old(Snapshot()), p, env, now, id, name, Snapshot(), r)
    {
      hide StickyHolders, LiveHolders, PaneClaimProven, Created, RestoredRow, StickyAnswer, Hijack;
      var effectivePane := p.pane;
      ghost var s := Snapshot();
      if WantsPane(p) {
        var hijacked := FindDirectParent(p, env, now);
        if hijacked {
          return Refused(PaneHijackRejected);
        }
        var sticky := FreshOrchestratorOnPane(p.pane.value, now);
        if sticky.Some? {
          StickyHoldersArePeers(s, p.pane.value, now);
          if SameWorkspace(peers[sticky.value].peer, p) {
            r := ReuseOrchestrator(sticky.value, p, now);
            return;
          }
          effectivePane := None;
        }
      }
      if GetOr(effectivePane, "") != "" {
        var holder := LivePaneHolder(p.pane.value, env, now);
        if holder.Some? {
          LiveHoldersArePeers(s, p.pane.value, env, now);
          if !PaneClaimProven(peers[holder.value].peer, p.agentPid, env) {
            effectivePane := None;
          }
        }
      }
      assert !Hijack(s, p, env, now) by { NoPaneNoHijack(s, p, env, now); }
      assert PaneSettled(s, p, env, now, effectivePane);
      r := CreateRecord(id, name, p, effectivePane, now);
      assert CreatedAnswer(s, p, env, now, id, name, effectivePane, Snapshot(), r);
    }

    /** The retirement guard: an accepted proof lifts the tombstone, a refused claim changes nothing. */
    method GuardRetirement(p: Params, env: Env) returns (admitted: bool, recovered: bool)
      modifies this`retired
      ensures admitted <==> !GuardRefuses(old(Snapshot()), p, env)
      ensures recovered <==> GuardAccepts(old(Snapshot()), p, env)
      ensures Snapshot() == AfterGuard(old(Snapshot()), p, env)
    {
      if p.claimed.Some? && p.claimed.value in retired {
        var cid := p.claimed.value;
        if retired[cid].hard {
          return false, false;
        }
        var livePID := p.agentPid.Some? && env.agentAlive;
        if !livePID && !p.verified {
          return false, false;
        }
        retired := retired - {cid};
        return true, true;
      }
      return true, false;
    }

    method AllocateAndRegister(p: Params, env: Env, now: Time) returns (r: Registration)
      requires Valid() && MintIsFresh(Snapshot(), env)
      modifies this
      ensures Allocated(old(Snapshot()), p, env, now, Snapshot(), r)
      ensures Valid()
    {
      hide Inv, IdChosen, NameChosen, ReconnectAnswer, FreshRegistered, MintIsFresh, GuardRefuses, GuardAccepts;
      ghost var s := Snapshot();
      GuardOnlyUnretires(s, p, env);
      var admitted, recovered := GuardRetirement(p, env);
      if !admitted {
        RefusedLeavesState(s, p, env);
        return Refused(PeerRetired);
      }
      ghost var g := Snapshot();
      var name := BuildDisplayName(peers, Seed(p), p.circle, RuntimeSession(p.metadata));
      var id := ChooseId(name, p, env);
      if id in peers {
        r := Reconnect(id, p, recovered, now);
      } else {
        r := RegisterFresh(id, name, p, env, now);
      }
      assert AllocatedAs(g, p, env, recovered, now, name, id, Snapshot(), r);
      AllocationSettled(s, p, env, now, name, id, Snapshot(), r);
    }

    // -------------------------------------------------------------------------
    // Addressing
    // -------------------------------------------------------------------------

    method FindNamed(name: string) returns (matches: set<PeerId>)
      ensures matches == Named(peers, name)
    {
      matches := {};
      var todo := peers.Keys;
      while todo != {}
        invariant todo <= peers.Keys
        invariant matches == Named(peers, name) - todo
        decreases todo
      {
        var id :| id in todo;
        if peers[id].peer.name == name {
          matches := matches + {id};
        }
        todo := todo - {id};
      }
    }

    method FilterCircle(ids: set<PeerId>, circle: string) returns (inside: set<PeerId>)
      requires ids <= peers.Keys
      ensures inside == InCircle(peers, ids, circle)
    {
      inside := {};
      var todo := ids;
      while todo != {}
        invariant todo <= ids
        invariant inside == InCircle(peers, ids, circle) - todo
        decreases todo
      {
        var id :| id in todo;
        if peers[id].peer.circle == circle {
          inside := inside + {id};
        }
        todo := todo - {id};
      }
    }

    method PreferActive(ids: set<PeerId>) returns (candidates: set<PeerId>)
      requires ids <= peers.Keys
      ensures candidates == Viable(peers, ids)
    {
      var active: set<PeerId> := {};
      var todo := ids;
      while todo != {}
        invariant todo <= ids
        invariant active == set id | id in ids && id !in todo && peers[id].peer.status != StatusOffline
        decreases todo
      {
        var id :| id in todo;
        if peers[id].peer.status != StatusOffline {
          active := active + {id};
        }
        todo := todo - {id};
      }
      candidates := if active == {} then ids else active;
      assert active == set id | id in ids && peers[id].peer.status != StatusOffline;
    }

    method FilterPaned(ids: set<PeerId>) returns (paned: set<PeerId>)
      requires ids <= peers.Keys
      ensures paned == PaneOwners(peers, ids)
    {
      paned := {};
      var todo := ids;
      while todo != {}
        invariant todo <= ids
        invariant paned == PaneOwners(peers, ids) - todo
        decreases todo
      {
        var id :| id in todo;
        if Paned(peers[id].peer) {
          paned := paned + {id};
        }
        todo := todo - {id};
      }
    }

    method MostPreferred(ids: set<PeerId>, connected: set<PeerId>) returns (best: PeerId)
      requires ids != {} && ids <= peers.Keys
      ensures Maximal(peers, connected, ids, best)
    {
      best :| best in ids;
      var bestKey := RankOf(peers[best].peer, connected);
      var todo := ids - {best};
      while todo != {}
        invariant todo <= ids && best in ids && bestKey == RankOf(peers[best].peer, connected)
        invariant forall o :: o in ids && o !in todo ==> !Greater(RankOf(peers[o].peer, connected), bestKey)
        decreases todo
      {
        var id :| id in todo;
        var k := RankOf(peers[id].peer, connected);
        if Greater(k, bestKey) {
          best, bestKey := id, k;
        }
        todo := todo - {id};
      }
    }

    /** resolvePeerLocked: an id hit, else a name, scoped to a circle or disambiguated by pane ownership. */
    method ResolvePeer(ident: string, circle: Option<string>, connected: set<PeerId>) returns (r: Resolution)
      ensures Resolves(peers, connected, ident, circle, r)
      ensures r.Found? ==> r.id in peers
    {
      hide Maximal, PaneOwners;
      if ident in peers {
        return Found(ident);
      }
      var matches := FindNamed(ident);
      if |matches| == 0 {
        return NotFound;
      }
      if circle.Some? {
        var filtered := FilterCircle(matches, circle.value);
        if |filtered| == 0 {
          SizeOne(matches);
          if |matches| == 1 {
            var only :| only in matches;
            if BypassesCircles(peers[only].peer.role) {
              return Found(only);
            }
          }
          return NotFound;
        }
        matches := filtered;
      }
      ViableWithin(peers, matches);
      var candidates := PreferActive(matches);
      SizeOne(candidates);
      if circle.None? && |candidates| > 1 {
        var paned := FilterPaned(candidates);
        SizeOne(paned);
        PanedWithin(peers, candidates);
        if |paned| == 1 {
          var only :| only in paned;
          return Found(only);
        }
        return Ambiguous;
      }
      var best := MostPreferred(candidates, connected);
      MaximalWithin(peers, connected, candidates, best);
      return Found(best);
    }

    method CheckAccess(sender: string, target: string, bypass: bool, circle: Option<string>, connected: set<PeerId>)
      returns (a: Access)
      ensures AccessDecided(peers, connected, sender, target, bypass, circle, a)
    {
      hide Resolves, CirclesPermit;
      var t := ResolvePeer(target, circle, connected);
      if t.Ambiguous? {
        return AmbiguousTarget;
      }
      if t.NotFound? {
        return UnknownTarget;
      }
      var home := peers[t.id].peer.circle;
      var from: Option<PeerId> := None;
      var scoped := ResolvePeer(sender, Some(home), connected);
      if scoped.Found? {
        from := Some(scoped.id);
      } else {
        var unscoped := ResolvePeer(sender, None, connected);
        if unscoped.Found? {
          from := Some(unscoped.id);
        }
      }
      assert SenderResolves(peers, connected, sender, home, from);
      var permitted := CirclesPermit(if from.Some? then Some(peers[from.value].peer) else None, peers[t.id].peer, bypass);
      if permitted {
        a := Granted(from, t.id);
      } else {
        assert from.Some? by { NobodyIsPermitted(peers[t.id].peer, bypass); }
        a := Denied(from.value);
      }
      assert AccessBetween(peers, from, t.id, bypass, a);
    }

    method GetOrchestrator(circle: string, connected: set<PeerId>, tolerance: Time, now: Time) returns (best: Option<PeerId>)
      ensures OrchestratorFound(Snapshot(), circle, connected, tolerance, now, best)
    {
      hide Entrenched;
      best := None;
      var todo := peers.Keys;
      while todo != {}
        invariant todo <= peers.Keys
        invariant best.None? ==> forall o :: o in peers && o !in todo ==>
                    !(peers[o].peer.circle == circle && Entrenched(peers[o].peer, connected, tolerance, now))
        invariant best.Some? ==> best.value in peers && peers[best.value].peer.circle == circle
                                 && Entrenched(peers[best.value].peer, connected, tolerance, now)
        invariant best.Some? ==> forall o :: o in peers && o !in todo && peers[o].peer.circle == circle
                                             && Entrenched(peers[o].peer, connected, tolerance, now)
                                             ==> !SeenAfter(peers[o].peer, peers[best.value].peer)
        decreases todo
      {
        var id :| id in todo;
        var p := peers[id].peer;
        if p.circle == circle && Entrenched(p, connected, tolerance, now) {
          if best.None? || SeenAfter(p, peers[best.value].peer) {
            best := Some(id);
          }
        }
        todo := todo - {id};
      }
    }

    // -------------------------------------------------------------------------
    // Operations addressed by name
    // -------------------------------------------------------------------------

    method UnregisterPeer(ident: string, circle: Option<string>, connected: set<PeerId>) returns (r: Resolution)
      requires Valid()
      modifies this`peers, this`mappings
      ensures Resolves(old(peers), connected, ident, circle, r)
      ensures Snapshot() == if r.Found? then PeerRemoved(old(Snapshot()), r.id) else old(Snapshot())
      ensures Valid()
    {
      hide Inv, Resolves, TameMove, WritesMarked, RowsLeaveWithRecords;
      r := ResolvePeer(ident, circle, connected);
      if r.Found? {
        UnregisterIsTame(Snapshot(), r.id);
        peers := peers - {r.id};
        mappings := mappings - {r.id};
      }
    }

    /** The second critical section of a mark by name: the state may have moved on since the name was resolved.
        A terminal mark for an unknown, id-shaped identifier still leaves a tombstone. */
    method MarkResolved(r: Resolution, ident: string, terminal: bool, now: Time)
      requires Valid()
      modifies this`peers, this`retired
      ensures Snapshot() == MarkedAsResolved(old(Snapshot()), r, ident, terminal, now)
      ensures Valid()
    {
      hide Inv, MarkedOffline;
      match r {
        case Found(id) => MarkOffline(id, terminal, false, now);
        case NotFound =>
          if terminal && LooksLikePeerId(ident) {
            MarkOffline(ident, true, false, now);
          }
        case Ambiguous =>
      }
    }

    /** Both sections with nothing in between. */
    method MarkOfflineByName(ident: string, terminal: bool, connected: set<PeerId>, now: Time) returns (r: Resolution)
      requires Valid()
      modifies this`peers, this`retired
      ensures Resolves(old(peers), connected, ident, None, r)
      ensures Snapshot() == MarkedAsResolved(old(Snapshot()), r, ident, terminal, now)
      ensures Valid()
    {
      hide Inv, Resolves, MarkedAsResolved;
      r := ResolvePeer(ident, None, connected);
      MarkResolved(r, ident, terminal, now);
    }

    method TouchLastSeen(ident: string, circle: Option<string>, connected: set<PeerId>, now: Time) returns (r: Resolution)
      requires Valid()
      modifies this`peers
      ensures Resolves(old(peers), connected, ident, circle, r)
      ensures Snapshot() == if r.Found? then Touched(old(Snapshot()), r.id, now) else old(Snapshot())
      ensures Valid()
    {
      hide Inv, Resolves, TameMove, WritesMarked, RowsLeaveWithRecords;
      r := ResolvePeer(ident, circle, connected);
      if r.Found? {
        LiveEditsAreTame(Snapshot(), r.id, TurnUnknown, "", map[], now);
        peers := peers[r.id := peers[r.id].(peer := peers[r.id].peer.(lastSeen := Some(now)))];
      }
    }

    method UpdateDescription(ident: string, text: string, circle: Option<string>, connected: set<PeerId>, now: Time)
      returns (r: Resolution)
      requires Valid()
      modifies this`peers, this`mappings, this`mappingsDirty, this`mappingsVersion, this`descriptionSetAt
      ensures Resolves(old(peers), connected, ident, circle, r)
      ensures Snapshot() == if r.Found? then Described(old(Snapshot()), r.id, text, now) else old(Snapshot())
      ensures Valid()
    {
      hide Inv, Resolves, TameMove, WritesMarked, RowsLeaveWithRecords;
      r := ResolvePeer(ident, circle, connected);
      if r.Found? {
        DescribeIsTame(Snapshot(), r.id, text, now);
        peers := peers[r.id := peers[r.id].(peer := peers[r.id].peer.(description := text, lastSeen := Some(now)))];
        if text == "" {
          descriptionSetAt := descriptionSetAt - {r.id};
        } else {
          descriptionSetAt := descriptionSetAt[r.id := now];
        }
        if r.id in mappings && mappings[r.id].description != text {
          mappings := mappings[r.id := mappings[r.id].(description := text, updatedAt := now)];
          MarkMappingsDirty();
        }
      }
    }

    method UpdateModelByName(ident: string, model: string, connected: set<PeerId>, now: Time) returns (r: Resolution)
      requires Valid()
      modifies this`peers, this`mappings, this`mappingsDirty, this`mappingsVersion
      ensures Resolves(old(peers), connected, ident, None, r)
      ensures Snapshot() == if r.Found? then ModelUpdated(old(Snapshot()), r.id, model, now) else old(Snapshot())
      ensures Valid()
    {
      hide Inv, Resolves, TameMove, WritesMarked, RowsLeaveWithRecords;
      r := ResolvePeer(ident, None, connected);
      if r.Found? {
        UpdateModelIsTame(Snapshot(), r.id, model, now);
        if peers[r.id].peer.model == Some(model) {
          return;
        }
        peers := peers[r.id := peers[r.id].(peer := peers[r.id].peer.(model := Some(model), lastSeen := Some(now)))];
        if r.id in mappings && mappings[r.id].model != Some(model) {
          mappings := mappings[r.id := mappings[r.id].(model := Some(model), updatedAt := now)];
          MarkMappingsDirty();
        }
      }
    }

    /** Live-only: nothing durable changes. */
    method UpdateMetadataByName(ident: string, metadata: Metadata, connected: set<PeerId>, now: Time) returns (r: Resolution)
      requires Valid()
      modifies this`peers
      ensures Resolves(old(peers), connected, ident, None, r)
      ensures Snapshot() == if r.Found? then MetadataMerged(old(Snapshot()), r.id, metadata, now) else old(Snapshot())
      ensures Valid()
    {
      hide Inv, Resolves, TameMove, WritesMarked, RowsLeaveWithRecords;
      r := ResolvePeer(ident, None, connected);
      if r.Found? {
        LiveEditsAreTame(Snapshot(), r.id, TurnUnknown, "", metadata, now);
        var q := peers[r.id].peer;
        peers := peers[r.id := peers[r.id].(peer := q.(metadata := q.metadata + metadata, lastSeen := Some(now)))];
      }
    }

    // -------------------------------------------------------------------------
    // The orchestrator role
    // -------------------------------------------------------------------------

    /** The most recently seen entrenched holder other than the target, if any. */
    method FindRoleBlocker(target: PeerId, circle: string, connected: set<PeerId>, tolerance: Time, now: Time)
      returns (holder: Option<PeerId>)
      ensures holder.Some? ==> LatestBlocker(Snapshot(), target, circle, connected, tolerance, now, holder.value)
      ensures holder.None? ==> Blockers(Snapshot(), target, circle, connected, tolerance, now) == {}
    {
      hide Entrenched;
      ghost var blockers := Blockers(Snapshot(), target, circle, connected, tolerance, now);
      holder := None;
      var todo := peers.Keys;
      while todo != {}
        invariant todo <= peers.Keys && blockers <= peers.Keys
        invariant holder.Some? ==> holder.value in blockers && holder.value in peers
        invariant holder.Some? ==> forall o :: o in blockers && o !in todo && o in peers ==>
                    !SeenAfter(peers[o].peer, peers[holder.value].peer)
        invariant holder.None? ==> blockers <= todo
        decreases todo
      {
        var id :| id in todo;
        var p := peers[id].peer;
        if id != target && p.circle == circle && Entrenched(p, connected, tolerance, now) {
          if holder.None? || SeenAfter(p, peers[holder.value].peer) {
            holder := Some(id);
          }
        }
        todo := todo - {id};
      }
    }

    /** Demote the record and row under id if it is another live holder of the role in the circle. */
    method DemoteIfLiveHolder(id: PeerId, target: PeerId, circle: string, now: Time, ghost s: State, ghost done: set<PeerId>)
      returns (hit: bool)
      requires Inv(s) && id in s.peers && target !in done
      requires Snapshot() == Phase(s, done, target, false, now)
      modifies this`peers, this`mappings, this`mappingsDirty, this`mappingsVersion
      ensures hit <==> id in LiveFormerHolders(s, target, circle) && id !in done
      ensures Snapshot() == Phase(s, if hit then done + {id} else done, target, false, now)
    {
      hide Inv, Phase, LiveFormerHolders;
      PhaseAt(s, done, target, false, now, id);
      AgreeOnHolding(s, target, circle, id);
      var p := peers[id].peer;
      hit := id != target && p.circle == circle && p.role == RoleOrchestrator;
      if hit {
        PhaseDemotes(s, done, target, false, now, id);
        peers := peers[id := peers[id].(peer := p.(role := RoleAgent))];
        if id in mappings && mappings[id].role != RoleAgent {
          mappings := mappings[id := mappings[id].(role := RoleAgent, updatedAt := now)];
          MarkMappingsDirty();
        }
      }
    }

    /** Demote the row under id if it holds the role in the circle. */
    method DemoteIfRowHolder(id: PeerId, target: PeerId, circle: string, now: Time, ghost s: State, ghost done: set<PeerId>)
      returns (hit: bool)
      requires Inv(s) && id in s.mappings && LiveFormerHolders(s, target, circle) <= done
      requires Snapshot() == Phase(s, done, target, true, now)
      modifies this`mappings, this`mappingsDirty, this`mappingsVersion
      ensures hit <==> id in FormerHolders(s, target, circle) && id !in done
      ensures Snapshot() == Phase(s, if hit then done + {id} else done, target, true, now)
    {
      hide Inv, Phase, LiveFormerHolders, FormerHolders;
      PhaseAt(s, done, target, true, now, id);
      HoldsByRow(s, target, circle, id);
      var m := mappings[id];
      hit := id != target && m.circle == circle && m.role == RoleOrchestrator;
      if hit {
        PhaseDemotes(s, done, target, true, now, id);
        mappings := mappings[id := m.(role := RoleAgent, updatedAt := now)];
        MarkMappingsDirty();
      }
    }

    /** Demote the other live holders of the role in the circle, record and row. */
    method DemoteLiveHolders(ghost s: State, target: PeerId, circle: string, now: Time) returns (previous: seq<PeerId>)
      requires Inv(s) && s == Snapshot()
      modifies this`peers, this`mappings, this`mappingsDirty, this`mappingsVersion
      ensures Snapshot() == Phase(s, Elements(previous), target, false, now)
      ensures Elements(previous) == LiveFormerHolders(s, target, circle) && |previous| == |Elements(previous)|
    {
      hide Inv, Phase, Elements, LiveFormerHolders, FormerHolders;
      ghost var holders := LiveFormerHolders(s, target, circle);
      HoldsByRow(s, target, circle, target);
      LiveHoldersHaveRecords(s, target, circle);
      PhaseBegins(s, target, now);
      ElementsGrow<PeerId>([], target);
      previous := [];
      ghost var done: set<PeerId> := {};
      var todo := peers.Keys;
      while todo != {}
        invariant todo <= s.peers.Keys
        invariant done <= holders && forall x :: x in holders ==> x in done || x in todo
        invariant Snapshot() == Phase(s, done, target, false, now)
        invariant Elements(previous) == done && |previous| == |done|
        decreases todo
      {
        var id :| id in todo;
        todo := todo - {id};
        var hit := DemoteIfLiveHolder(id, target, circle, now, s, done);
        if hit {
          ElementsGrow(previous, id);
          previous := previous + [id];
          done := done + {id};
        }
      }
      assert done == holders;
    }

    /** Demote the holders that are left: rows without a live record. */
    method DemoteRowHolders(ghost s: State, target: PeerId, circle: string, now: Time, already: seq<PeerId>)
      returns (previous: seq<PeerId>)
      requires Inv(s) && target in s.peers
      requires Snapshot() == Phase(s, Elements(already), target, true, now)
      requires Elements(already) == LiveFormerHolders(s, target, circle) && |already| == |Elements(already)|
      modifies this`mappings, this`mappingsDirty, this`mappingsVersion
      ensures Snapshot() == Phase(s, Elements(previous), target, true, now)
      ensures Elements(previous) == FormerHolders(s, target, circle) && |previous| == |Elements(previous)|
    {
      hide Inv, Phase, Elements, LiveFormerHolders, FormerHolders;
      previous := already;
      ghost var done := Elements(already);
      LiveHoldersHaveRecords(s, target, circle);
      PhaseAt(s, done, target, true, now, target);
      var todo := mappings.Keys;
      while todo != {}
        invariant todo <= s.mappings.Keys
        invariant Snapshot() == Phase(s, done, target, true, now)
        invariant Elements(already) <= done <= FormerHolders(s, target, circle)
        invariant FormerHolders(s, target, circle) <= done + todo
        invariant Elements(previous) == done && |previous| == |done|
        decreases todo
      {
        var id :| id in todo;
        var hit := DemoteIfRowHolder(id, target, circle, now, s, done);
        if hit {
          ElementsGrow(previous, id);
          previous := previous + [id];
          done := done + {id};
        }
        todo := todo - {id};
      }
      assert done == FormerHolders(s, target, circle);
    }

    method ClaimSpecialRole(ident: string, role: Role, circle: Option<string>, force: bool, connected: set<PeerId>,
                            tolerance: Time, now: Time)
      returns (out: ClaimOutcome)
      requires Valid()
      modifies this`peers, this`mappings, this`mappingsDirty, this`mappingsVersion
      ensures RoleClaimed(old(Snapshot()), ident, role, circle, connected, tolerance, now, Snapshot(), out)
      ensures Valid()
    {
      hide Inv, Resolves, Blockers, FormerHolders, LiveFormerHolders, Phase, AfterClaim;
      if role != RoleOrchestrator {
        return BadRole;
      }
      ghost var s := Snapshot();
      var r := ResolvePeer(ident, circle, connected);
      if r.Ambiguous? {
        return AmbiguousPeer;
      }
      if r.NotFound? {
        return UnknownPeer;
      }
      var target := r.id;
      var about := if GetOr(circle, "") != "" then circle.value else peers[target].peer.circle;
      var holder := FindRoleBlocker(target, about, connected, tolerance, now);
      if holder.Some? {
        out := Conflict(holder.value);
        assert Resolves(s.peers, connected, ident, circle, r) && ClaimDecided(s, target, circle, connected, tolerance, now, s, out);
        return;
      }
      var alreadyHeld := peers[target].peer.role == RoleOrchestrator;
      var previous := DemoteLiveHolders(s, target, about, now);
      TargetIsNoFormerHolder(s, target, about);
      PhaseAt(s, Elements(previous), target, false, now, target);
      PhaseCrowns(s, Elements(previous), target, now);
      peers := peers[target := peers[target].(peer := peers[target].peer.(role := RoleOrchestrator, lastSeen := Some(now)))];
      if target in mappings {
        mappings := mappings[target := mappings[target].(role := RoleOrchestrator, updatedAt := now)];
        MarkMappingsDirty();
      }
      previous := DemoteRowHolders(s, target, about, now, previous);
      PhaseCompletes(s, target, about, now);
      ClaimKeepsInv(s, target, about, now);
      out := Claimed(target, alreadyHeld, previous);
      assert Resolves(s.peers, connected, ident, circle, r) && ClaimDecided(s, target, circle, connected, tolerance, now, Snapshot(), out);
    }
  }

  lemma RefusedLeavesState(s: State, p: Params, env: Env)
    requires GuardRefuses(s, p, env)
    ensures AfterGuard(s, p, env) == s
  {
  }

  lemma AllocationSettled(s: State, p: Params, env: Env, now: Time, name: string, id: PeerId, s': State, r: Registration)
    requires Inv(s) && MintIsFresh(s, env) && !GuardRefuses(s, p, env)
    requires AllocatedAs(AfterGuard(s, p, env), p, env, GuardAccepts(s, p, env), now, name, id, s', r)
    ensures Allocated(s, p, env, now, s', r) && Inv(s')
  {
    hide Inv, MintIsFresh, AllocatedAs, AfterGuard, GuardRefuses, GuardAccepts;
    RegistrationKeeps(s, p, env, now, s', r);
  }

  lemma NoEmptyId(s: State)
    requires Inv(s)
    ensures s.peers.Keys <= s.mappings.Keys && "" !in s.peers
  {
  }

  lemma NoPaneNoHijack(s: State, p: Params, env: Env, now: Time)
    ensures !WantsPane(p) ==> !Hijack(s, p, env, now)
  {
  }

  lemma StickyHoldersArePeers(s: State, pane: string, now: Time)
    ensures StickyHolders(s, pane, now) <= s.peers.Keys
  {
  }

  lemma LiveHoldersArePeers(s: State, pane: string, env: Env, now: Time)
    ensures LiveHolders(s, pane, env, now) <= s.peers.Keys
  {
  }

  /** A peer_id as the daemon mints it, rather than a display name. */
  predicate LooksLikePeerId(ident: string) {
    |ident| > 6 && ident[..6] == "repow-"
  }

  /** What the second section of a mark by name does to whatever state it finds. */
  function MarkedAsResolved(s: State, r: Resolution, ident: string, terminal: bool, now: Time): State {
    match r
    case Found(id) => MarkedOffline(s, id, terminal, false, now)
    case NotFound => if terminal && LooksLikePeerId(ident) then MarkedOffline(s, ident, true, false, now) else s
    case Ambiguous => s
  }

  /** A terminal mark by a name that resolves to nobody leaves a soft tombstone under that very string if and only if it
      starts like a minted id and goes on. */
  lemma UnknownNameIsEntombedExactlyWhen(s: State, ident: string, now: Time)
    requires ident !in s.peers
    ensures
      var s' := MarkedAsResolved(s, NotFound, ident, true, now);
      s' == if |ident| >= 7 && "repow-" <= ident then s.(retired := s.retired[ident := Retirement(now, false)]) else s
  {
  }

  /** Whatever happened since the name was resolved, a terminal mark leaves no live record under the resolved id and a
      tombstone for it, unless its record was Retired by then. */
  lemma TerminalMarkHoldsAfterAnything(s: State, id: PeerId, ident: string, now: Time)
    requires Inv(s)
    ensures
      var s' := MarkedAsResolved(s, Found(id), ident, true, now);
      && (id in s'.peers <==> id in s.peers)
      && (id in s'.peers ==> s'.peers[id].state == Retired)
      && (id in s'.retired || (id in s.peers && s.peers[id].state == Retired))
      && (!(id in s.peers && s.peers[id].state == Retired) ==> s'.retired == s.retired[id := Retirement(now, false)])
      && s'.mappings == s.mappings
      && forall o :: o in s.peers && o != id ==> s'.peers[o] == s.peers[o]
  {
    if id in s.peers {
      assert Backed(id, s.peers[id], s.mappings);
    }
  }

  lemma ViableWithin(peers: map<PeerId, Record>, ids: set<PeerId>)
    requires ids <= peers.Keys && ids != {}
    ensures Viable(peers, ids) <= ids && Viable(peers, ids) != {}
  {
  }

  lemma PanedWithin(peers: map<PeerId, Record>, ids: set<PeerId>)
    requires ids <= peers.Keys
    ensures PaneOwners(peers, ids) <= ids
  {
  }

  lemma MaximalWithin(peers: map<PeerId, Record>, connected: set<PeerId>, ids: set<PeerId>, id: PeerId)
    requires ids <= peers.Keys && Maximal(peers, connected, ids, id)
    ensures id in ids
  {
  }

  lemma NobodyIsPermitted(target: Peer, bypass: bool)
    ensures CirclesPermit(None, target, bypass)
  {
  }
}
