/** What the operations on known peers leave behind, told in the fields of the records and rows
    (daemon-go/peer/registry.go, reconcile.go, registry_lifecycle_byname.go, registry_access.go). */
module EffectLaws {
  import opened Fsm
  import opened Peers
  import opened RegistrySpec
  import opened RegistrySteps

  /** Nothing but the record of id, and its row, may differ. */
  predicate OnlyTouches(s: State, s': State, id: PeerId) {
    && s'.peers.Keys == s.peers.Keys && s'.mappings.Keys == s.mappings.Keys && s'.retired == s.retired
    && (forall o :: o in s.peers && o != id ==> s'.peers[o] == s.peers[o])
    && (forall o :: o in s.mappings && o != id ==> s'.mappings[o] == s.mappings[o])
  }

  lemma RecordFacts(s: State, id: PeerId)
    requires Inv(s) && id in s.peers
    ensures id in s.mappings && s.peers[id].state != Unregistered
  {
    assert Backed(id, s.peers[id], s.mappings);
  }

  /** A status frame for an Online or Busy record leaves that very status reported, seen now, and nothing else; for any
      other record, or none, it changes nothing. */
  lemma FrameIsReported(s: State, id: PeerId, status: PeerStatus, now: Time, s': State)
    requires Inv(s) && s' == StatusUpdated(s, id, status, now)
    ensures
      if id in s.peers && s.peers[id].state in {Online, Busy} then
        && OnlyTouches(s, s', id) && s'.mappings == s.mappings
        && s'.peers[id].peer == s.peers[id].peer.(status := status, lastSeen := Some(now))
        && s'.peers[id].state == match status case StatusOnline => Online case StatusBusy => Busy case StatusOffline => Offline
      else s' == s
  {
    hide Inv;
    if id in s.peers {
      RecordFacts(s, id);
      assert s.peers[id := s.peers[id]] == s.peers;
    }
  }

  /** An offline mark takes an Online or Busy record Offline; a terminal one retires any record not Retired yet, and
      leaves a tombstone dated now, hard if asked, for it or for an id without a record. Pane, pid and rows stay. */
  lemma MarkTakesOffline(s: State, id: PeerId, terminal: bool, hard: bool, now: Time, s': State)
    requires Inv(s) && s' == MarkedOffline(s, id, terminal, hard, now)
    ensures s'.mappings == s.mappings && s'.peers.Keys == s.peers.Keys
    ensures forall o :: o in s.peers && o != id ==> s'.peers[o] == s.peers[o]
    ensures id in s.peers ==>
              s'.peers[id] ==
                if s.peers[id].state in (if terminal then {Online, Busy, Offline} else {Online, Busy})
                then Record(s.peers[id].peer.(status := StatusOffline, lastSeen := Some(now)), if terminal then Retired else Offline)
                else s.peers[id]
    ensures s'.retired ==
              if terminal && !(id in s.peers && s.peers[id].state == Retired)
              then s.retired[id := Retirement(now, hard)] else s.retired
  {
    hide Inv;
    if id in s.peers {
      RecordFacts(s, id);
    }
  }

  /** A rename of a known peer happens if and only if every other peer of that name and its backend is Offline: they leave
      the records, not the rows; the peer and its row bear the name, the row stamped. */
  lemma RenameTakesEffect(s: State, id: PeerId, name: string, now: Time, s': State)
    requires Inv(s) && s' == Renamed(s, id, name, now) && id in s.peers
    ensures
      var ghosts := set o | o in s.peers && o != id && s.peers[o].peer.name == name
                            && s.peers[o].peer.backend == s.peers[id].peer.backend;
      if forall o :: o in ghosts ==> s.peers[o].state == Offline then
        && id in s.mappings && s'.peers.Keys == s.peers.Keys - ghosts
        && s'.peers[id] == Record(s.peers[id].peer.(name := name), s.peers[id].state)
        && (forall o :: o in s'.peers && o != id ==> s'.peers[o] == s.peers[o])
        && s'.mappings == s.mappings[id := s.mappings[id].(name := name, updatedAt := now)]
        && s'.retired == s.retired
      else s' == s
  {
    hide Inv;
    RecordFacts(s, id);
    assert Namesakes(s, id, name) ==
      set o | o in s.peers && o != id && s.peers[o].peer.name == name && s.peers[o].peer.backend == s.peers[id].peer.backend;
  }

  /** A move puts the record and its row in the circle, the row stamped. */
  lemma MoveTakesEffect(s: State, id: PeerId, circle: string, now: Time, s': State)
    requires Inv(s) && s' == CircleMoved(s, id, circle, now)
    ensures id !in s.peers ==> s' == s
    ensures id in s.peers ==>
              && OnlyTouches(s, s', id) && id in s.mappings
              && s'.peers[id] == Record(s.peers[id].peer.(circle := circle), s.peers[id].state)
              && s'.mappings[id] == s.mappings[id].(circle := circle, updatedAt := now)
              && s'.dirty && s'.version > s.version
  {
    hide Inv;
    if id in s.peers {
      RecordFacts(s, id);
    }
  }

  /** A description is stored with the record and its row; the row is stamped only when it changed. */
  lemma DescriptionTakesEffect(s: State, id: PeerId, text: string, now: Time, s': State)
    requires Inv(s) && s' == Described(s, id, text, now) && id in s.peers
    ensures OnlyTouches(s, s', id) && id in s.mappings
    ensures s'.peers[id] == Record(s.peers[id].peer.(description := text, lastSeen := Some(now)), s.peers[id].state)
    ensures s'.mappings[id] == if s.mappings[id].description == text then s.mappings[id]
                                  else s.mappings[id].(description := text, updatedAt := now)
    ensures s'.describedAt == if text == "" then s.describedAt - {id} else s.describedAt[id := now]
  {
    hide Inv;
    RecordFacts(s, id);
  }

  /** Reading a peer clears its description, in record and row, if and only if it is dated at least a positive ttl ago; an
      undated one is dated, and nothing else happens. */
  lemma ExpiryTakesEffect(s: State, id: PeerId, ttl: Time, now: Time, s': State)
    requires Inv(s) && s' == DescriptionExpired(s, id, ttl, now) && id in s.peers
    ensures OnlyTouches(s, s', id) && id in s.mappings
    ensures
      var q := s.peers[id].peer;
      if q.description != "" && ttl > 0 && id in s.describedAt && s.describedAt[id] + ttl <= now then
        && s'.peers[id] == Record(q.(description := ""), s.peers[id].state)
        && s'.mappings[id] == s.mappings[id].(description := "", updatedAt := now)
        && s'.describedAt == s.describedAt - {id}
      else
        && s'.peers == s.peers && s'.mappings == s.mappings
        && s'.describedAt == if q.description != "" && ttl > 0 && id !in s.describedAt
                             then s.describedAt[id := now] else s.describedAt
  {
    hide Inv;
    RecordFacts(s, id);
  }

  /** The edits of live fields: each writes its own field, most of them a sighting, and no row but the model's. */
  lemma LiveEditsTakeEffect(s: State, op: Op, s': State)
    requires op.UpdateTurn? || op.UpdateTmux? || op.Touch? || op.MergeMetadata?
    requires Step(s, op, s') && op.id in s.peers
    ensures OnlyTouches(s, s', op.id) && s'.mappings == s.mappings
    ensures
      var q := s.peers[op.id].peer;
      s'.peers[op.id] == Record(
        match op
        case UpdateTurn(_, turn, now) => q.(turn := turn, lastSeen := Some(now))
        case UpdateTmux(_, tmux) => q.(tmux := Some(tmux))
        case Touch(_, now) => q.(lastSeen := Some(now))
        case MergeMetadata(_, metadata, now) => q.(metadata := q.metadata + metadata, lastSeen := Some(now)),
        s.peers[op.id].state)
  {
  }

  lemma ModelTakesEffect(s: State, id: PeerId, model: string, now: Time, s': State)
    requires Inv(s) && s' == ModelUpdated(s, id, model, now) && id in s.peers
    ensures OnlyTouches(s, s', id) && id in s.mappings
    ensures
      var q, m := s.peers[id].peer, s.mappings[id];
      if q.model == Some(model) then s' == s
      else
        && s'.peers[id] == Record(q.(model := Some(model), lastSeen := Some(now)), s.peers[id].state)
        && s'.mappings[id] == if m.model == Some(model) then m else m.(model := Some(model), updatedAt := now)
  {
    hide Inv;
    RecordFacts(s, id);
  }

  /** Unregistering takes record and row away, and nothing else; for an unknown id it does nothing. */
  lemma UnregisterTakesEffect(s: State, op: Op, s': State)
    requires op.Unregister? && Step(s, op, s')
    ensures s' == if op.id in s.peers then s.(peers := s.peers - {op.id}, mappings := s.mappings - {op.id}) else s
  {
  }

  /** A demotion takes exactly the candidates that are Online or Busy by then Offline, seen now, connected or not. */
  lemma DemotionTakesEffect(s: State, op: Op, s': State, id: PeerId)
    requires op.Demote? && Inv(s) && Step(s, op, s') && id in s.peers
    ensures s' == s.(peers := s'.peers) && s'.peers.Keys == s.peers.Keys
    ensures s'.peers[id] ==
              if id in op.candidates && s.peers[id].state in {Online, Busy}
              then Record(s.peers[id].peer.(status := StatusOffline, lastSeen := Some(op.now)), Offline) else s.peers[id]
  {
    assert Backed(id, s.peers[id], s.mappings);
  }

  /** The busy repair brings exactly the Busy records whose turn is under way and that were last seen before the cutoff
      back Online and idle, seen now. */
  lemma BusyRepairTakesEffect(s: State, op: Op, s': State, id: PeerId)
    requires op.RepairBusy? && Inv(s) && Step(s, op, s') && id in s.peers
    ensures s' == s.(peers := s'.peers) && s'.peers.Keys == s.peers.Keys
    ensures
      var q := s.peers[id].peer;
      s'.peers[id] ==
        if s.peers[id].state == Busy && q.turn == TurnWorking && q.lastSeen.Some? && q.lastSeen.value < op.cutoff
        then Record(q.(status := StatusOnline, turn := TurnIdle, lastSeen := Some(op.now)), Online) else s.peers[id]
  {
    assert Backed(id, s.peers[id], s.mappings);
  }

  /** Pruning keeps exactly the tombstones dated after the cutoff. */
  lemma PruningTakesEffect(s: State, op: Op, s': State, id: PeerId)
    requires op.PruneRetired? && Step(s, op, s')
    ensures s' == s.(retired := s'.retired)
    ensures id in s'.retired <==> id in s.retired && op.cutoff < s.retired[id].at
    ensures id in s'.retired ==> s'.retired[id] == s.retired[id]
  {
  }
}
