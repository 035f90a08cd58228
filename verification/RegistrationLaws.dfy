/** What AllocateAndRegister keeps, whatever the request carries and however its map iterations run. */
module RegistrationLaws {
  import opened Fsm
  import opened Peers
  import opened Naming
  import opened RegistrySpec
  import opened RegistrySteps

  /** Role, circle, name, backend and description of a durable row are untouched. */
  predicate SameIdentity(a: Mapping, b: Mapping) {
    a.name == b.name && a.circle == b.circle && a.role == b.role && a.backend == b.backend && a.description == b.description
  }

  /** A record followed the diagram; it left Retired only if `accepted`, and kept its identity fields. */
  ghost predicate RegisteredMove(a: Record, b: Record, accepted: bool) {
    && (a.state == b.state || Edge(a.state, b.state))
    && (a.state == Retired && b.state != Retired ==> accepted)
    && b.peer.role == a.peer.role && b.peer.circle == a.peer.circle && b.peer.name == a.peer.name
    && b.peer.backend == a.peer.backend && b.peer.description == a.peer.description && b.peer.path == a.peer.path
  }

  /** What every registration keeps: no record or row disappears, known identities are preserved in records and
      rows alike, new records are Online, and the only new row belongs to the minted id. */
  ghost predicate RegistrationDiscipline(s: State, accepted: bool, freshId: PeerId, s': State) {
    && Inv(s')
    && WritesMarked(s, s')
    && s.peers.Keys <= s'.peers.Keys
    && s.mappings.Keys <= s'.mappings.Keys <= s.mappings.Keys + {freshId}
    && (forall id :: id in s.peers ==> RegisteredMove(s.peers[id], s'.peers[id], accepted))
    && (forall id :: id in s'.peers && id !in s.peers ==> s'.peers[id].state == Online)
    && (forall id :: id in s.mappings ==> SameIdentity(s.mappings[id], s'.mappings[id]))
  }

  // ---------------------------------------------------------------------------
  // Building blocks
  // ---------------------------------------------------------------------------

  lemma DisplacedKeepsIdentity(r: Record, now: Time)
    requires InLockstep(r)
    ensures InLockstep(Displaced(r, now)) && RegisteredMove(r, Displaced(r, now), false)
    ensures Displaced(r, now).peer.id == r.peer.id
    ensures !Live(r.state) ==> Displaced(r, now) == r
    ensures Live(r.state) ==> Displaced(r, now).state == Offline && Displaced(r, now).peer.pane == None
  {
  }

  /** Releasing a pane leaves every other record's identity, row agreement and lockstep alone. */
  lemma ReleaseKeeps(peers: map<PeerId, Record>, mappings: map<PeerId, Mapping>, pane: Option<string>, keeper: PeerId,
                     now: Time)
    requires forall id :: id in peers ==> Backed(id, peers[id], mappings)
    ensures PaneTaken(peers, pane, keeper, now).Keys == peers.Keys
    ensures forall id :: id in peers ==> Backed(id, PaneTaken(peers, pane, keeper, now)[id], mappings)
    ensures forall id :: id in peers ==> RegisteredMove(peers[id], PaneTaken(peers, pane, keeper, now)[id], false)
    ensures keeper in peers ==> PaneTaken(peers, pane, keeper, now)[keeper] == peers[keeper]
  {
    forall id | id in peers
      ensures Backed(id, Displaced(peers[id], now), mappings)
      ensures RegisteredMove(peers[id], Displaced(peers[id], now), false)
    {
      DisplacedKeepsIdentity(peers[id], now);
    }
  }

  /** The discipline, from what happened record by record and to the one row written. */
  lemma RegistrationFrame(s: State, accepted: bool, freshId: PeerId, s': State, id: PeerId)
    requires Inv(s)
    requires s'.peers.Keys == s.peers.Keys + {id}
    requires forall o :: o in s'.peers ==> Backed(o, s'.peers[o], s'.mappings)
    requires forall o :: o in s.peers ==> RegisteredMove(s.peers[o], s'.peers[o], accepted)
    requires id !in s.peers ==> s'.peers[id].state == Online
    requires id in s'.mappings
    requires s'.mappings == s.mappings[id := s'.mappings[id]] && s'.mappings[id].id == id && id != ""
    requires if id in s.mappings then SameIdentity(s.mappings[id], s'.mappings[id]) else id == freshId
    requires s'.dirty && s'.version > s.version
    ensures RegistrationDiscipline(s, accepted, freshId, s')
  {
    hide Backed, RegisteredMove;
  }

  lemma RefreshKeeps(r: Record, p: Params, recovered: bool, now: Time)
    requires InLockstep(r)
    ensures InLockstep(Refreshed(r, p, recovered, now))
    ensures RegisteredMove(r, Refreshed(r, p, recovered, now), recovered)
    ensures Refreshed(r, p, recovered, now).peer.id == r.peer.id
  {
  }

  lemma MoveWeakens(a: Record, b: Record, accepted: bool)
    requires RegisteredMove(a, b, false)
    ensures RegisteredMove(a, b, accepted)
  {
  }

  /** The row a reconnect stamps, when there is one, still agrees with the refreshed record. */
  lemma RefreshIsBacked(s: State, id: PeerId, p: Params, recovered: bool, now: Time)
    requires Inv(s) && id in s.peers
    ensures id in s.mappings
    ensures
      var s' := Reconnected(s, id, p, recovered, now);
      && id in s'.mappings && SameIdentity(s.mappings[id], s'.mappings[id]) && s'.mappings[id].id == id
      && Backed(id, Refreshed(s.peers[id], p, recovered, now), s'.mappings)
      && s'.peers == PaneTaken(s.peers[id := Refreshed(s.peers[id], p, recovered, now)], p.pane, id, now)
      && s'.mappings == s.mappings[id := s'.mappings[id]] && s'.dirty && s'.version > s.version
  {
    hide Refreshed, PaneTaken;
    assert Backed(id, s.peers[id], s.mappings);
    RefreshKeeps(s.peers[id], p, recovered, now);
  }

  lemma ReconnectDiscipline(s: State, id: PeerId, p: Params, recovered: bool, now: Time, freshId: PeerId)
    requires Inv(s) && id in s.peers
    ensures RegistrationDiscipline(s, recovered, freshId, Reconnected(s, id, p, recovered, now))
  {
    hide Reconnected, Refreshed, PaneTaken, RegisteredMove, SameIdentity, RegistrationDiscipline, InLockstep, Agree;
    var s' := Reconnected(s, id, p, recovered, now);
    assert Backed(id, s.peers[id], s.mappings);
    RefreshKeeps(s.peers[id], p, recovered, now);
    RefreshIsBacked(s, id, p, recovered, now);
    var peers := s.peers[id := Refreshed(s.peers[id], p, recovered, now)];
    forall o | o in peers ensures Backed(o, peers[o], s'.mappings) {
      assert o != id ==> Backed(o, s.peers[o], s.mappings);
    }
    ReleaseKeeps(peers, s'.mappings, p.pane, id, now);
    forall o | o in s.peers ensures RegisteredMove(s.peers[o], s'.peers[o], recovered) {
      assert o in peers;
      if o != id {
        MoveWeakens(s.peers[o], s'.peers[o], recovered);
      }
    }
    RegistrationFrame(s, recovered, freshId, s', id);
  }

  /** The new record and its row agree; a durable row keeps its identity. */
  lemma FreshIsBacked(s: State, id: PeerId, name: string, p: Params, pane: Option<string>, now: Time)
    requires Inv(s)
    requires id in s.mappings ==> s.mappings[id].backend == p.backend
    ensures
      var row := RestoredRow(s, id, name, p, now);
      && row.id == id
      && Backed(id, FreshRecord(row, p, pane, now), s.mappings[id := row])
      && FreshRecord(row, p, pane, now).state == Online
      && (id in s.mappings ==> SameIdentity(s.mappings[id], row))
  {
  }

  lemma CreateDiscipline(s: State, id: PeerId, name: string, p: Params, pane: Option<string>, now: Time, freshId: PeerId)
    requires Inv(s) && id !in s.peers && id != ""
    requires id in s.mappings || id == freshId
    requires id in s.mappings ==> s.mappings[id].backend == p.backend
    ensures RegistrationDiscipline(s, false, freshId, Created(s, id, name, p, pane, now))
  {
    hide FreshRecord, RestoredRow, PaneTaken, RegisteredMove, SameIdentity, RegistrationDiscipline;
    var s' := Created(s, id, name, p, pane, now);
    FreshIsBacked(s, id, name, p, pane, now);
    var peers := s.peers[id := FreshRecord(RestoredRow(s, id, name, p, now), p, pane, now)];
    forall o | o in peers ensures Backed(o, peers[o], s'.mappings) {
      assert o != id ==> Backed(o, s.peers[o], s.mappings);
    }
    ReleaseKeeps(peers, s'.mappings, pane, id, now);
    forall o | o in s.peers ensures RegisteredMove(s.peers[o], s'.peers[o], false) {
      assert o in peers;
    }
    RegistrationFrame(s, false, freshId, s', id);
  }

  lemma StickyDiscipline(s: State, h: PeerId, p: Params, now: Time, freshId: PeerId)
    requires Inv(s) && h in s.peers
    ensures RegistrationDiscipline(s, false, freshId, StickyTouched(s, h, p, now))
  {
  }

  lemma AcceptedMonotone(s: State, accepted: bool, freshId: PeerId, s': State)
    requires RegistrationDiscipline(s, false, freshId, s')
    ensures RegistrationDiscipline(s, accepted, freshId, s')
  {
  }

  /** A chosen id that is not a live record is either minted or names a row of the claimant's backend. */
  lemma ChosenIdIsKnownOrMinted(s: State, p: Params, env: Env, name: string, id: PeerId)
    requires Inv(s) && MintIsFresh(s, env)
    requires IdChosen(s, p, env, name, id) && id !in s.peers
    ensures id != ""
    ensures id in s.mappings || id == env.freshId
    ensures id in s.mappings ==> s.mappings[id].backend == p.backend
  {
  }

  /** Registration lifts the tombstone first; nothing else of the state is touched by the guard. */
  lemma GuardOnlyUnretires(s: State, p: Params, env: Env)
    requires Inv(s) && MintIsFresh(s, env)
    ensures Inv(AfterGuard(s, p, env)) && MintIsFresh(AfterGuard(s, p, env), env)
    ensures AfterGuard(s, p, env).(retired := s.retired) == s
  {
  }

  /** The ways a registration can end. */
  datatype Shape =
    | Barred
    | Hijacked
    | InPlace(id: PeerId)
    | Reused(holder: PeerId)
    | Fresh(id: PeerId, name: string, pane: Option<string>)

  ghost predicate Shaped(s: State, p: Params, env: Env, now: Time, s': State, r: Registration, shape: Shape) {
    var g := AfterGuard(s, p, env);
    match shape
    case Barred => GuardRefuses(s, p, env) && s' == s && r == Refused(PeerRetired)
    case Hijacked => !GuardRefuses(s, p, env) && Hijack(g, p, env, now) && s' == g && r == Refused(PaneHijackRejected)
    case InPlace(id) => ReconnectAnswer(g, p, GuardAccepts(s, p, env), now, id, s', r)
    case Reused(h) => StickyAnswer(g, p, now, h, s', r)
    case Fresh(id, name, pane) =>
      && id !in g.peers && id != ""
      && (if id in g.mappings then g.mappings[id].backend == p.backend else id == env.freshId)
      && CreatedAnswer(g, p, env, now, id, name, pane, s', r)
  }

  lemma RegistrationShape(s: State, p: Params, env: Env, now: Time, s': State, r: Registration) returns (shape: Shape)
    requires Inv(s) && MintIsFresh(s, env)
    requires Allocated(s, p, env, now, s', r)
    ensures Shaped(s, p, env, now, s', r, shape)
  {
    hide NameChosen, OfflineTakeovers, AdoptableRows, ReconnectAnswer, StickyAnswer, CreatedAnswer;
    if GuardRefuses(s, p, env) {
      shape := Barred;
      return;
    }
    var g := AfterGuard(s, p, env);
    GuardOnlyUnretires(s, p, env);
    var name, id :| AllocatedAs(g, p, env, GuardAccepts(s, p, env), now, name, id, s', r);
    if id in g.peers {
      shape := InPlace(id);
    } else {
      ChosenIdIsKnownOrMinted(g, p, env, name, id);
      if Hijack(g, p, env, now) {
        shape := Hijacked;
      } else if h :| StickyAnswer(g, p, now, h, s', r) {
        shape := Reused(h);
      } else {
        var pane :| CreatedAnswer(g, p, env, now, id, name, pane, s', r);
        shape := Fresh(id, name, pane);
      }
    }
  }

  /** What a registration does to a record it displaces or leaves alone. */
  ghost predicate Bystander(s: State, p: Params, now: Time, s': State, o: PeerId) {
    && o in s.peers && o in s'.peers
    && (|| s'.peers[o] == s.peers[o]
        || (&& WantsPane(p) && HoldsPane(s.peers[o].peer, p.pane.value) && Live(s.peers[o].state)
            && !StickyOrchestrator(s.peers[o].peer, now)
            && s'.peers[o] == Displaced(s.peers[o], now)))
  }

  lemma TakingLeavesBystanders(peers: map<PeerId, Record>, pane: Option<string>, keeper: PeerId, now: Time, o: PeerId)
    requires o in peers && o != keeper && InLockstep(peers[o])
    ensures o in PaneTaken(peers, pane, keeper, now)
    ensures
      var r, r' := peers[o], PaneTaken(peers, pane, keeper, now)[o];
      || r' == r
      || (&& GetOr(pane, "") != "" && HoldsPane(r.peer, pane.value) && Live(r.state) && !StickyOrchestrator(r.peer, now)
          && r' == Displaced(r, now))
  {
    DisplacedKeepsIdentity(peers[o], now);
  }

  lemma TakingMakesBystander(s: State, p: Params, keeper: PeerId, kept: Record, pane: Option<string>, now: Time, s': State,
                             o: PeerId)
    requires o != keeper && (o in s.peers ==> InLockstep(s.peers[o]))
    requires s'.peers == PaneTaken(s.peers[keeper := kept], pane, keeper, now)
    requires GetOr(pane, "") != "" ==> pane == p.pane && WantsPane(p)
    ensures o in s.peers ==> Bystander(s, p, now, s', o)
    ensures o !in s.peers ==> o !in s'.peers
  {
    hide PaneTaken, InLockstep, StickyOrchestrator, Displaced, Live;
    var peers := s.peers[keeper := kept];
    TakingKeepsKeys(peers, pane, keeper, now);
    if o in s.peers {
      TakingLeavesBystanders(peers, pane, keeper, now, o);
    }
  }

  lemma InPlaceLeavesBystanders(s: State, p: Params, recovered: bool, now: Time, id: PeerId, s': State, r: Registration,
                                o: PeerId)
    requires ReconnectAnswer(s, p, recovered, now, id, s', r) && o != id && (o in s.peers ==> InLockstep(s.peers[o]))
    ensures r.Registered? && r.id == id
    ensures o in s.peers ==> Bystander(s, p, now, s', o)
    ensures o !in s.peers ==> o !in s'.peers
  {
    hide Bystander, PaneTaken, Refreshed, InLockstep;
    TakingMakesBystander(s, p, id, Refreshed(s.peers[id], p, recovered, now), p.pane, now, s', o);
  }

  lemma FreshLeavesBystanders(s: State, p: Params, env: Env, now: Time, id: PeerId, name: string, pane: Option<string>,
                              s': State, r: Registration, o: PeerId)
    requires CreatedAnswer(s, p, env, now, id, name, pane, s', r) && o != id && (o in s.peers ==> InLockstep(s.peers[o]))
    ensures r.Registered? && r.id == id
    ensures o in s.peers ==> Bystander(s, p, now, s', o)
    ensures o !in s.peers ==> o !in s'.peers
  {
    hide Bystander, PaneTaken, FreshRecord, RestoredRow, PaneSettled, StickyHolders, InLockstep;
    SettledPaneIsClaimed(s, p, env, now, pane);
    TakingMakesBystander(s, p, id, FreshRecord(RestoredRow(s, id, name, p, now), p, pane, now), pane, now, s', o);
  }

  lemma AnswersName(s: State, p: Params, env: Env, now: Time, s': State, r: Registration, shape: Shape)
    requires Shaped(s, p, env, now, s', r, shape)
    ensures shape.InPlace? || shape.Fresh? ==> r.Registered? && r.id == shape.id
    ensures shape.Reused? ==> r.Registered? && r.id == shape.holder
  {
    hide StickyHolders, PaneSettled, Reconnected, Created;
  }

  /** Whoever is not the registrant is untouched, or is a live record displaced from the claimed pane; no record
      appears but the registrant's. */
  lemma BystandersAreDisplacedAtMost(s: State, p: Params, env: Env, now: Time, s': State, r: Registration, o: PeerId)
    requires Inv(s) && MintIsFresh(s, env)
    requires Allocated(s, p, env, now, s', r)
    requires r.Registered? ==> r.id != o
    ensures o in s.peers ==> Bystander(s, p, now, s', o)
    ensures o !in s.peers ==> o !in s'.peers
  {
    hide Allocated, Hijack, GuardAccepts, GuardRefuses, MintIsFresh, InLockstep, Inv, SameWorkspace, ReconnectAnswer,
         CreatedAnswer, StickyHolders, Displaced, StickyOrchestrator;
    GuardOnlyUnretires(s, p, env);
    var g := AfterGuard(s, p, env);
    assert g.peers == s.peers;
    if o in s.peers {
      RecordInLockstep(s, o);
    }
    var shape := RegistrationShape(s, p, env, now, s', r);
    AnswersName(s, p, env, now, s', r, shape);
    match shape {
      case Barred =>
      case Hijacked =>
      case InPlace(id) => InPlaceLeavesBystanders(g, p, GuardAccepts(s, p, env), now, id, s', r, o);
      case Reused(k) =>
      case Fresh(id, name, pane) => FreshLeavesBystanders(g, p, env, now, id, name, pane, s', r, o);
    }
  }

  lemma RecordInLockstep(s: State, o: PeerId)
    requires Inv(s) && o in s.peers
    ensures InLockstep(s.peers[o])
  {
    assert Backed(o, s.peers[o], s.mappings);
  }

  lemma TakingKeepsKeys(peers: map<PeerId, Record>, pane: Option<string>, keeper: PeerId, now: Time)
    ensures PaneTaken(peers, pane, keeper, now).Keys == peers.Keys
  {
  }

  lemma SettledPaneIsClaimed(s: State, p: Params, env: Env, now: Time, pane: Option<string>)
    requires PaneSettled(s, p, env, now, pane)
    ensures GetOr(pane, "") != "" ==> pane == p.pane && WantsPane(p)
  {
  }

  lemma OnlyTheRegistrantRevives(s: State, p: Params, env: Env, now: Time, s': State, r: Registration, o: PeerId)
    requires Inv(s) && MintIsFresh(s, env)
    requires Allocated(s, p, env, now, s', r)
    requires r.Registered? ==> r.id != o
    ensures o in s'.peers && (o in s.peers ==> !Live(s.peers[o].state)) ==> !Live(s'.peers[o].state)
  {
    hide Allocated, Displaced, StickyOrchestrator;
    BystandersAreDisplacedAtMost(s, p, env, now, s', r, o);
  }

  /** Registering keeps the invariant, every known identity and every retirement the guard did not lift, and brings
      back to life nobody but the peer it answers with. */
  lemma RegistrationKeeps(s: State, p: Params, env: Env, now: Time, s': State, r: Registration)
    requires Inv(s) && MintIsFresh(s, env)
    requires Allocated(s, p, env, now, s', r)
    ensures RegistrationDiscipline(s, GuardAccepts(s, p, env), env.freshId, s')
    ensures forall o :: o in s'.peers && (o in s.peers ==> !Live(s.peers[o].state)) && Live(s'.peers[o].state) ==>
              r.Registered? && r.id == o
  {
    hide Allocated, AfterGuard, GuardAccepts, GuardRefuses, Hijack, PaneSettled, Reconnected, StickyTouched, Created,
         RestoredRow, RegistrationDiscipline, MintIsFresh, SameWorkspace;
    forall o | o in s'.peers && (o in s.peers ==> !Live(s.peers[o].state)) && Live(s'.peers[o].state)
      ensures r.Registered? && r.id == o
    {
      if !(r.Registered? && r.id == o) {
        OnlyTheRegistrantRevives(s, p, env, now, s', r, o);
      }
    }
    var g := AfterGuard(s, p, env);
    var accepted := GuardAccepts(s, p, env);
    GuardOnlyUnretires(s, p, env);
    var shape := RegistrationShape(s, p, env, now, s', r);
    match shape {
      case Barred =>
        NothingHappened(s, accepted, env.freshId);
      case Hijacked =>
        NothingHappened(g, accepted, env.freshId);
        GuardInvisible(s, g, accepted, env.freshId, s');
      case InPlace(id) =>
        ReconnectDiscipline(g, id, p, accepted, now, env.freshId);
        GuardInvisible(s, g, accepted, env.freshId, s');
      case Reused(h) =>
        StickyDiscipline(g, h, p, now, env.freshId);
        AcceptedMonotone(g, accepted, env.freshId, s');
        GuardInvisible(s, g, accepted, env.freshId, s');
      case Fresh(id, name, pane) =>
        CreateDiscipline(g, id, name, p, pane, now, env.freshId);
        AcceptedMonotone(g, accepted, env.freshId, s');
        GuardInvisible(s, g, accepted, env.freshId, s');
    }
  }

  lemma NothingHappened(s: State, accepted: bool, freshId: PeerId)
    requires Inv(s)
    ensures RegistrationDiscipline(s, accepted, freshId, s)
  {
  }

  lemma GuardInvisible(s: State, g: State, accepted: bool, freshId: PeerId, s': State)
    requires g.(retired := s.retired) == s
    requires RegistrationDiscipline(g, accepted, freshId, s')
    ensures RegistrationDiscipline(s, accepted, freshId, s')
  {
    assert g.peers == s.peers && g.mappings == s.mappings && g.dirty == s.dirty && g.version == s.version;
  }

  // ---------------------------------------------------------------------------
  // Pane ownership
  // ---------------------------------------------------------------------------

  lemma CreatedHoldsPane(s: State, p: Params, env: Env, now: Time, id: PeerId, name: string, pane: Option<string>,
                         s': State, r: Registration)
    requires CreatedAnswer(s, p, env, now, id, name, pane, s', r)
    ensures r.Registered? && r.id == id && id in s'.peers && s'.peers[id].peer.pane == pane
  {
    hide PaneTaken, PaneSettled, StickyHolders, RestoredRow;
    var row := RestoredRow(s, id, name, p, now);
    RowUnderId(s, id, name, p, now);
    TakingSparesKeeper(s.peers[id := FreshRecord(row, p, pane, now)], pane, id, now);
  }

  lemma RowUnderId(s: State, id: PeerId, name: string, p: Params, now: Time)
    ensures RestoredRow(s, id, name, p, now).id == id
  {
  }

  lemma ReusedIsKnown(s: State, p: Params, now: Time, h: PeerId, s': State, r: Registration)
    requires StickyAnswer(s, p, now, h, s', r)
    ensures h in s.peers
  {
  }

  /** A registration that added a record stored it with the pane its gates settled on. */
  lemma FreshShape(s: State, p: Params, env: Env, now: Time, s': State, r: Registration)
    returns (name: string, pane: Option<string>)
    requires Inv(s) && MintIsFresh(s, env)
    requires Allocated(s, p, env, now, s', r)
    requires r.Registered? && r.id !in s.peers
    ensures CreatedAnswer(AfterGuard(s, p, env), p, env, now, r.id, name, pane, s', r)
    ensures r.id in s'.peers && s'.peers[r.id].peer.pane == pane
  {
    hide Allocated, Hijack, Inv, MintIsFresh, GuardAccepts, GuardRefuses, ReconnectAnswer, StickyAnswer, CreatedAnswer;
    var shape := RegistrationShape(s, p, env, now, s', r);
    GuardOnlyUnretires(s, p, env);
    var g := AfterGuard(s, p, env);
    assert g.peers == s.peers;
    AnswersName(s, p, env, now, s', r, shape);
    if shape.Reused? {
      ReusedIsKnown(g, p, now, shape.holder, s', r);
    } else if shape.InPlace? {
      ReconnectAnswersItself(g, p, GuardAccepts(s, p, env), now, shape.id, s', r);
    }
    assert shape.Fresh?;
    name, pane := shape.name, shape.pane;
    CreatedHoldsPane(g, p, env, now, shape.id, name, pane, s', r);
  }

  /** When a fresh registration ends holding a pane, no other Online or Busy record holds it. */
  lemma FreshPaneIsExclusive(s: State, p: Params, env: Env, now: Time, s': State, r: Registration, other: PeerId)
    requires Inv(s) && MintIsFresh(s, env)
    requires Allocated(s, p, env, now, s', r)
    requires r.Registered? && r.id !in s.peers && r.id in s'.peers
    requires Paned(s'.peers[r.id].peer)
    requires other in s'.peers && other != r.id && Live(s'.peers[other].state)
    ensures s'.peers[other].peer.pane != s'.peers[r.id].peer.pane
  {
    hide Allocated;
    var name, pane := FreshShape(s, p, env, now, s', r);
    var g := AfterGuard(s, p, env);
    assert other in g.peers && Backed(other, g.peers[other], g.mappings);
    DisplacedKeepsIdentity(g.peers[other], now);
    assert other !in StickyHolders(g, pane.value, now);
  }

  /** The registrant keeps its claimed pane exactly as the gates allow, and when it is stored without one
      every other record is as it was. */
  lemma PanelessLeavesOthersAlone(s: State, p: Params, env: Env, now: Time, s': State, r: Registration, other: PeerId)
    requires Inv(s) && MintIsFresh(s, env)
    requires Allocated(s, p, env, now, s', r)
    requires r.Registered? && r.id !in s.peers && WantsPane(p)
    ensures r.id in s'.peers
    ensures s'.peers[r.id].peer.pane == p.pane || s'.peers[r.id].peer.pane == None
    ensures s'.peers[r.id].peer.pane == p.pane ==>
              StickyHolders(s, p.pane.value, now) == {} &&
              (LiveHolders(s, p.pane.value, env, now) == {} ||
               exists h :: h in LiveHolders(s, p.pane.value, env, now) &&
                           PaneClaimProven(s.peers[h].peer, p.agentPid, env))
    ensures s'.peers[r.id].peer.pane == None ==>
              (StickyHolders(s, p.pane.value, now) != {} ||
               exists h :: h in LiveHolders(s, p.pane.value, env, now) &&
                           !PaneClaimProven(s.peers[h].peer, p.agentPid, env))
    ensures s'.peers[r.id].peer.pane == None && other in s.peers ==>
              other in s'.peers && s'.peers[other] == s.peers[other]
  {
    hide Allocated;
    var name, pane := FreshShape(s, p, env, now, s', r);
    var g := AfterGuard(s, p, env);
    assert StickyHolders(g, p.pane.value, now) == StickyHolders(s, p.pane.value, now);
    assert LiveHolders(g, p.pane.value, env, now) == LiveHolders(s, p.pane.value, env, now);
  }

  /** No registration by anyone else displaces, detaches or alters a live, recently seen orchestrator. */
  lemma OrchestratorIsSticky(s: State, p: Params, env: Env, now: Time, s': State, r: Registration, h: PeerId)
    requires Inv(s) && MintIsFresh(s, env)
    requires Allocated(s, p, env, now, s', r)
    requires h in s.peers && StickyOrchestrator(s.peers[h].peer, now)
    requires r.Registered? ==> r.id != h
    ensures h in s'.peers && s'.peers[h] == s.peers[h]
  {
    hide Allocated, Inv, MintIsFresh, StickyOrchestrator;
    BystandersAreDisplacedAtMost(s, p, env, now, s', r, h);
  }

  /** A claim that still describes a live record is answered with that record, reconnected in place; so is every
      registration that answers with a known record other than a sticky orchestrator. */
  lemma KnownRecordIsReconnected(s: State, p: Params, env: Env, now: Time, s': State, r: Registration)
    requires Inv(s) && MintIsFresh(s, env)
    requires Allocated(s, p, env, now, s', r)
    requires r.Registered?
    requires || (ClaimUsable(s, p) && p.claimed.value in s.peers)
             || (r.id in s.peers && !StickyOrchestrator(s.peers[r.id].peer, now))
    ensures Shaped(s, p, env, now, s', r, InPlace(r.id))
    ensures ClaimUsable(s, p) && p.claimed.value in s.peers ==> r.id == p.claimed.value
  {
    hide NameChosen, ReconnectAnswer, Created, PaneSettled, Hijack, StickyOrchestrator, OfflineTakeovers, AdoptableRows,
         ClaimMatchesIdentity, GuardAccepts, GuardRefuses, MintIsFresh, Inv;
    GuardOnlyUnretires(s, p, env);
    var g := AfterGuard(s, p, env);
    assert g.peers == s.peers && g.mappings == s.mappings;
    var name, id :| AllocatedAs(g, p, env, GuardAccepts(s, p, env), now, name, id, s', r);
    if id in g.peers {
      ReconnectAnswersItself(g, p, GuardAccepts(s, p, env), now, id, s', r);
    }
  }

  lemma ReconnectAnswersItself(s: State, p: Params, recovered: bool, now: Time, id: PeerId, s': State, r: Registration)
    requires ReconnectAnswer(s, p, recovered, now, id, s', r)
    ensures r.Registered? && r.id == id && id in s.peers
  {
  }

  /** After an in-place reconnect on a pane, the only other live records on it are sticky orchestrators. */
  lemma ReconnectSharesOnlyWithOrchestrators(s: State, p: Params, env: Env, now: Time, s': State, r: Registration,
                                             other: PeerId)
    requires Inv(s) && MintIsFresh(s, env) && WantsPane(p)
    requires r.Registered? && Shaped(s, p, env, now, s', r, InPlace(r.id))
    requires other in s'.peers && other != r.id && Live(s'.peers[other].state)
    ensures r.id in s'.peers && HoldsPane(s'.peers[r.id].peer, p.pane.value)
    ensures HoldsPane(s'.peers[other].peer, p.pane.value) ==> StickyOrchestrator(s'.peers[other].peer, now)
  {
    hide Hijack, PaneSettled;
    GuardOnlyUnretires(s, p, env);
    assert Backed(other, s.peers[other], s.mappings);
    DisplacedKeepsIdentity(s.peers[other], now);
  }

  /** Two live records on one pane. */
  predicate Share(s: State, a: PeerId, b: PeerId) {
    && a != b && a in s.peers && b in s.peers
    && Live(s.peers[a].state) && Live(s.peers[b].state)
    && Paned(s.peers[a].peer) && s.peers[a].peer.pane == s.peers[b].peer.pane
  }

  /** Before the call: answering with the known record a puts it on the pane of the live record b, either because the
      request names that pane and b is sticky, or because it names none and a comes back to life on the pane it kept. */
  predicate StartsSharing(s: State, p: Params, env: Env, now: Time, a: PeerId, b: PeerId) {
    && a != b && a in s.peers && b in s.peers && !Share(s, a, b)
    && (s.peers[a].state != Retired || GuardAccepts(s, p, env))
    && Live(s.peers[b].state) && Paned(s.peers[b].peer)
    && if p.pane.Some? then p.pane == s.peers[b].peer.pane && StickyOrchestrator(s.peers[b].peer, now)
       else s.peers[a].peer.pane == s.peers[b].peer.pane
  }

  /** A registration puts no two bystanders on one pane. */
  lemma BystandersStartNoSharing(s: State, p: Params, env: Env, now: Time, s': State, r: Registration, a: PeerId, b: PeerId)
    requires Inv(s) && MintIsFresh(s, env)
    requires Allocated(s, p, env, now, s', r)
    requires r.Registered? ==> r.id != a && r.id != b
    requires Share(s', a, b)
    ensures Share(s, a, b)
  {
    hide Allocated, Inv, MintIsFresh, Displaced, StickyOrchestrator;
    BystandersAreDisplacedAtMost(s, p, env, now, s', r, a);
    BystandersAreDisplacedAtMost(s, p, env, now, s', r, b);
    BystanderLivesOn(s, p, now, s', a);
    BystanderLivesOn(s, p, now, s', b);
  }

  lemma BystanderLivesOn(s: State, p: Params, now: Time, s': State, o: PeerId)
    requires Inv(s) && (o in s.peers ==> Bystander(s, p, now, s', o)) && (o !in s.peers ==> o !in s'.peers)
    requires o in s'.peers && Live(s'.peers[o].state)
    ensures o in s.peers && s'.peers[o] == s.peers[o]
  {
    hide Inv, Displaced, StickyOrchestrator;
    RecordInLockstep(s, o);
    DisplacedKeepsIdentity(s.peers[o], now);
  }

  lemma InPlacePane(s: State, id: PeerId, p: Params, recovered: bool, now: Time)
    requires id in s.peers
    ensures id in Reconnected(s, id, p, recovered, now).peers
    ensures Reconnected(s, id, p, recovered, now).peers[id].peer.pane == if p.pane.Some? then p.pane else s.peers[id].peer.pane
  {
    hide PaneReleased;
    TakingSparesKeeper(s.peers[id := Refreshed(s.peers[id], p, recovered, now)], p.pane, id, now);
  }

  lemma ReusedKeepsPane(s: State, p: Params, now: Time, h: PeerId, s': State, r: Registration)
    requires StickyAnswer(s, p, now, h, s', r)
    ensures WantsPane(p) && h in s.peers && h in s'.peers && s.peers[h].peer.pane == p.pane
    ensures s'.peers[h].peer.pane == s.peers[h].peer.pane && s'.peers[h].state == s.peers[h].state
    ensures forall o :: o in s.peers && o != h ==> o in s'.peers && s'.peers[o] == s.peers[o]
    ensures StickyOrchestrator(s.peers[h].peer, now)
  {
  }

  /** A record that answers a registration comes to share its pane with another live record exactly in those two ways. */
  lemma SharingBeginsExactlyWhen(s: State, p: Params, env: Env, now: Time, s': State, r: Registration, b: PeerId)
    requires Inv(s) && MintIsFresh(s, env)
    requires Allocated(s, p, env, now, s', r)
    requires r.Registered? && r.id != b
    ensures Share(s', r.id, b) && !Share(s, r.id, b) <==> StartsSharing(s, p, env, now, r.id, b)
  {
    hide Allocated, Hijack, GuardRefuses, GuardAccepts, MintIsFresh, Inv, ReconnectAnswer, StickyAnswer, CreatedAnswer,
         StickyOrchestrator, Bystander;
    GuardOnlyUnretires(s, p, env);
    var g := AfterGuard(s, p, env);
    assert g.peers == s.peers;
    var shape := RegistrationShape(s, p, env, now, s', r);
    AnswersName(s, p, env, now, s', r, shape);
    match shape {
      case Barred =>
      case Hijacked =>
      case InPlace(id) => InPlaceShares(s, p, env, now, s', r, b);
      case Reused(h) =>
        ReusedKeepsPane(g, p, now, h, s', r);
        StickyEnds(g, h, p, now, s', r);
        ReusedAddsNobody(g, p, now, h, s', r);
      case Fresh(id, name, pane) =>
        if Share(s', r.id, b) {
          FreshPaneIsExclusive(s, p, env, now, s', r, b);
        }
    }
  }

  lemma ReusedAddsNobody(s: State, p: Params, now: Time, h: PeerId, s': State, r: Registration)
    requires StickyAnswer(s, p, now, h, s', r)
    ensures s'.peers.Keys == s.peers.Keys
  {
  }

  lemma InPlaceShares(s: State, p: Params, env: Env, now: Time, s': State, r: Registration, b: PeerId)
    requires Inv(s) && MintIsFresh(s, env)
    requires Allocated(s, p, env, now, s', r)
    requires r.Registered? && r.id != b && Shaped(s, p, env, now, s', r, InPlace(r.id))
    ensures Share(s', r.id, b) && !Share(s, r.id, b) <==> StartsSharing(s, p, env, now, r.id, b)
  {
    hide Allocated, Hijack, GuardRefuses, GuardAccepts, MintIsFresh, Inv, Reconnected, StickyOrchestrator, Displaced;
    GuardOnlyUnretires(s, p, env);
    var g, id := AfterGuard(s, p, env), r.id;
    assert g.peers == s.peers;
    InPlacePane(g, id, p, GuardAccepts(s, p, env), now);
    InPlaceEnds(g, id, p, GuardAccepts(s, p, env), now);
    RecordInLockstep(s, id);
    BystandersAreDisplacedAtMost(s, p, env, now, s', r, b);
    if Share(s', id, b) {
      BystanderLivesOn(s, p, now, s', b);
      if WantsPane(p) {
        ReconnectSharesOnlyWithOrchestrators(s, p, env, now, s', r, b);
      }
    }
  }

  /** A refusal changes nothing but, for a pane hijack, the tombstone the guard had already lifted. */
  lemma RefusalChangesNothing(s: State, p: Params, env: Env, now: Time, s': State, r: Registration)
    requires Inv(s) && MintIsFresh(s, env)
    requires Allocated(s, p, env, now, s', r)
    requires r.Refused?
    ensures s' == s || (GuardAccepts(s, p, env) && r.error == PaneHijackRejected && s' == Unretire(s, p.claimed.value))
    ensures r.error == PeerRetired <==> GuardRefuses(s, p, env)
  {
    hide Allocated, Hijack, PaneSettled;
    var shape := RegistrationShape(s, p, env, now, s', r);
  }

  lemma InPlaceEnds(s: State, id: PeerId, p: Params, recovered: bool, now: Time)
    requires Inv(s) && id in s.peers
    ensures id in Reconnected(s, id, p, recovered, now).peers
    ensures Live(Reconnected(s, id, p, recovered, now).peers[id].state) <==> s.peers[id].state != Retired || recovered
    ensures Reconnected(s, id, p, recovered, now).retired == s.retired
  {
    hide PaneReleased, Agree;
    assert Backed(id, s.peers[id], s.mappings);
    var peers := s.peers[id := Refreshed(s.peers[id], p, recovered, now)];
    assert PaneTaken(peers, p.pane, id, now)[id] == peers[id] by { TakingSparesKeeper(peers, p.pane, id, now); }
  }

  lemma TakingSparesKeeper(peers: map<PeerId, Record>, pane: Option<string>, keeper: PeerId, now: Time)
    requires keeper in peers
    ensures keeper in PaneTaken(peers, pane, keeper, now) && PaneTaken(peers, pane, keeper, now)[keeper] == peers[keeper]
  {
  }

  lemma StickyEnds(s: State, h: PeerId, p: Params, now: Time, s': State, r: Registration)
    requires Inv(s) && StickyAnswer(s, p, now, h, s', r)
    ensures r == Registered(h, s.peers[h].peer.name) && h in s'.peers
    ensures Live(s.peers[h].state) && s'.peers[h].state == s.peers[h].state && s'.retired == s.retired
  {
    assert Backed(h, s.peers[h], s.mappings);
  }

  lemma FreshEnds(s: State, id: PeerId, name: string, p: Params, pane: Option<string>, now: Time)
    ensures id in Created(s, id, name, p, pane, now).peers
    ensures Created(s, id, name, p, pane, now).peers[id].state == Online
    ensures Created(s, id, name, p, pane, now).retired == s.retired
  {
    hide PaneReleased;
    var peers := s.peers[id := FreshRecord(RestoredRow(s, id, name, p, now), p, pane, now)];
    TakingSparesKeeper(peers, pane, id, now);
  }

  /** A successful registration leaves its peer live, except exactly when the id it settled on was a Retired record
      and the guard had lifted no tombstone: that registration succeeds and the peer stays retired.
      Of the tombstones, it touches the claimed one only. */
  lemma RegistrantIsLiveExactlyWhen(s: State, p: Params, env: Env, now: Time, s': State, r: Registration)
    requires Inv(s) && MintIsFresh(s, env)
    requires Allocated(s, p, env, now, s', r)
    ensures r.Registered? ==>
              r.id in s'.peers &&
              (Live(s'.peers[r.id].state) <==>
               !(r.id in s.peers && s.peers[r.id].state == Retired && !GuardAccepts(s, p, env)))
    ensures s'.retired == if GuardAccepts(s, p, env) then s.retired - {p.claimed.value} else s.retired
  {
    hide Allocated, Hijack, PaneSettled, GuardAccepts, GuardRefuses, Inv, Reconnected, Created, StickyAnswer, MintIsFresh,
         RestoredRow;
    GuardOnlyUnretires(s, p, env);
    var g := AfterGuard(s, p, env);
    assert g.peers == s.peers;
    RefusalLiftsNothing(s, p, env);
    var shape := RegistrationShape(s, p, env, now, s', r);
    match shape {
      case Barred =>
      case Hijacked =>
      case InPlace(id) => InPlaceEnds(g, id, p, GuardAccepts(s, p, env), now);
      case Reused(h) => StickyEnds(g, h, p, now, s', r);
      case Fresh(id, name, pane) => FreshEnds(g, id, name, p, pane, now);
    }
  }

  /** An id the registration may settle on among the known ones, by claim or by adoption. */
  ghost predicate MayChoose(s: State, p: Params, id: PeerId) {
    if ClaimUsable(s, p) then id == p.claimed.value
    else exists name ::
      && NameChosen(s.peers, Seed(p), p.circle, RuntimeSession(p.metadata), name)
      && OfflineTakeovers(s, p, name) == {}
      && id in AdoptableRows(s, p, name)
  }

  /** Before the call: no tombstone for the claim, and a Retired record that the claim or an adoptable row leads to. */
  ghost predicate MayStayRetired(s: State, p: Params) {
    !ClaimsRetired(s, p) && exists id :: id in s.peers && s.peers[id].state == Retired && MayChoose(s, p, id)
  }

  /** The registration can succeed and yet leave its peer retired. */
  ghost predicate CanEndRetired(s: State, p: Params, env: Env, now: Time) {
    exists s', r :: Allocated(s, p, env, now, s', r) && r.Registered? && r.id in s'.peers && !Live(s'.peers[r.id].state)
  }

  /** Told before the call: some order of the map iterations lets the registration succeed with its peer not live if
      and only if a Retired record is what its claim, or a row it may adopt, names, and the guard has no tombstone to lift. */
  lemma EndsRetiredExactlyWhen(s: State, p: Params, env: Env, now: Time)
    requires Inv(s) && MintIsFresh(s, env)
    ensures CanEndRetired(s, p, env, now) <==> MayStayRetired(s, p)
  {
    hide CanEndRetired, MayStayRetired;
    if MayStayRetired(s, p) {
      RetiredCanBeAnswered(s, p, env, now);
    }
    if CanEndRetired(s, p, env, now) {
      RetiredWasChosen(s, p, env, now);
    }
  }

  lemma RetiredCanBeAnswered(s: State, p: Params, env: Env, now: Time)
    requires Inv(s) && MintIsFresh(s, env) && MayStayRetired(s, p)
    ensures CanEndRetired(s, p, env, now)
  {
    hide NameChosen, OfflineTakeovers, AdoptableRows, Reconnected, Inv, MintIsFresh;
    var id :| id in s.peers && s.peers[id].state == Retired && MayChoose(s, p, id);
    var name: string;
    if ClaimUsable(s, p) {
      name := SomeNameIsChosen(s.peers, Seed(p), p.circle, RuntimeSession(p.metadata));
    } else {
      name :| NameChosen(s.peers, Seed(p), p.circle, RuntimeSession(p.metadata), name)
        && OfflineTakeovers(s, p, name) == {} && id in AdoptableRows(s, p, name);
    }
    assert id != "" by { NoEmptyRecord(s); }
    assert IdChosen(s, p, env, name, id);
    var s', r := Reconnected(s, id, p, false, now), Registered(id, s.peers[id].peer.name);
    InPlaceEnds(s, id, p, false, now);
    assert !GuardRefuses(s, p, env) && !GuardAccepts(s, p, env) && AfterGuard(s, p, env) == s;
    assert AllocatedAs(s, p, env, false, now, name, id, s', r);
    assert AllocatedAs(AfterGuard(s, p, env), p, env, GuardAccepts(s, p, env), now, name, id, s', r);
  }

  lemma NoEmptyRecord(s: State)
    requires Inv(s)
    ensures "" !in s.peers
  {
  }

  lemma RetiredWasChosen(s: State, p: Params, env: Env, now: Time)
    requires Inv(s) && MintIsFresh(s, env) && CanEndRetired(s, p, env, now)
    ensures MayStayRetired(s, p)
  {
    hide NameChosen, OfflineTakeovers, AdoptableRows, Inv, Hijack, Live, FreshRegistered, ReconnectAnswer;
    var s', r :| Allocated(s, p, env, now, s', r) && r.Registered? && r.id in s'.peers && !Live(s'.peers[r.id].state);
    RegistrantIsLiveExactlyWhen(s, p, env, now, s', r);
    assert !ClaimsRetired(s, p) && AfterGuard(s, p, env) == s;
    var name, id :| AllocatedAs(s, p, env, false, now, name, id, s', r);
    if id in s.peers {
      ReconnectAnswersItself(s, p, false, now, id, s', r);
      if !ClaimUsable(s, p) && OfflineTakeovers(s, p, name) != {} {
        OfflineIsNotRetired(s, p, name, id);
      }
      assert MayChoose(s, p, id);
    } else {
      FreshIsLive(s, p, env, now, id, name, s', r);
    }
  }

  lemma OfflineIsNotRetired(s: State, p: Params, name: string, id: PeerId)
    requires id in OfflineTakeovers(s, p, name)
    ensures id in s.peers && s.peers[id].state == Offline
  {
  }

  lemma FreshIsLive(s: State, p: Params, env: Env, now: Time, id: PeerId, name: string, s': State, r: Registration)
    requires Inv(s) && id !in s.peers && r.Registered?
    requires FreshRegistered(s, p, env, now, id, name, s', r)
    ensures r.id in s'.peers && Live(s'.peers[r.id].state)
  {
    hide Inv, PaneSettled, RestoredRow, Created, StickyAnswer;
    if h :| StickyAnswer(s, p, now, h, s', r) {
      StickyEnds(s, h, p, now, s', r);
    } else {
      var pane :| CreatedAnswer(s, p, env, now, id, name, pane, s', r);
      FreshEnds(s, id, name, p, pane, now);
    }
  }

  lemma RefusalLiftsNothing(s: State, p: Params, env: Env)
    ensures GuardRefuses(s, p, env) ==> !GuardAccepts(s, p, env)
    ensures GuardAccepts(s, p, env) ==> p.claimed.Some?
  {
  }
}
