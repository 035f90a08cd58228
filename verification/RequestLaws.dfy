/** What a registration answers and stores, told in the fields of the request, the records and the rows
    (AllocateAndRegister in daemon-go/peer/registry.go). */
module RequestLaws {
  import opened Fsm
  import opened Peers
  import opened Naming
  import opened RegistrySpec
  import opened RegistrationLaws

  const MINUTE: Time := 60_000_000_000

  // ---------------------------------------------------------------------------
  // The guard
  // ---------------------------------------------------------------------------

  /** A claim is refused as retired if and only if it has a tombstone that is hard, or soft with neither a live agent
      process nor a verified certificate behind the claim. */
  lemma RetiredIsRefusedExactlyWhen(s: State, p: Params, env: Env, now: Time, s': State, r: Registration)
    requires Allocated(s, p, env, now, s', r)
    ensures r == Refused(PeerRetired) <==>
              && p.claimed.Some? && p.claimed.value in s.retired
              && (s.retired[p.claimed.value].hard || !((p.agentPid.Some? && env.agentAlive) || p.verified))
  {
    hide NameChosen, IdChosen, Reconnected, Created, PaneSettled, StickyHolders, StickyTouched, Hijack;
    if !GuardRefuses(s, p, env) {
      var name, id :| AllocatedAs(AfterGuard(s, p, env), p, env, GuardAccepts(s, p, env), now, name, id, s', r);
    }
  }

  /** Otherwise a tombstone of the claim is lifted, and no other tombstone ever is. */
  lemma ClaimedTombstoneIsLifted(s: State, p: Params, env: Env, now: Time, s': State, r: Registration, id: PeerId)
    requires Inv(s) && MintIsFresh(s, env) && Allocated(s, p, env, now, s', r)
    ensures id in s'.retired <==> id in s.retired && !(p.claimed == Some(id) && r != Refused(PeerRetired))
    ensures id in s'.retired ==> s'.retired[id] == s.retired[id]
  {
    hide Allocated;
    RegistrantIsLiveExactlyWhen(s, p, env, now, s', r);
    RetiredIsRefusedExactlyWhen(s, p, env, now, s', r);
  }

  // ---------------------------------------------------------------------------
  // Which id
  // ---------------------------------------------------------------------------

  /** The name and id a successful registration settled on, and how its answer relates to them. */
  ghost predicate Settled(s: State, p: Params, env: Env, now: Time, s': State, r: Registration, name: string, id: PeerId) {
    && NameChosen(s.peers, Seed(p), p.circle, RuntimeSession(p.metadata), name)
    && IdChosen(s, p, env, name, id)
    && r.Registered?
    && if id in s.peers then r == Registered(id, s.peers[id].peer.name)
       else if r.id == id then id in s'.peers && r.name == if id in s.mappings then s.mappings[id].name else name
       else r.id in s.peers && Reused(s, p, now, r.id) && r.name == s.peers[r.id].peer.name
  }

  /** A sticky orchestrator of the claimant's workspace on the claimed pane, in fields. */
  predicate Reused(s: State, p: Params, now: Time, h: PeerId)
    requires h in s.peers
  {
    var q := s.peers[h].peer;
    && p.pane.Some? && p.pane.value != "" && q.pane == p.pane
    && q.role == RoleOrchestrator && s.peers[h].state in {Online, Busy}
    && q.lastSeen.Some? && now - q.lastSeen.value <= MINUTE
    && q.backend == p.backend && q.circle == p.circle
  }

  lemma SearchIsTheSame(s: State, g: State, p: Params, env: Env, name: string, id: PeerId)
    requires g.(retired := s.retired) == s && IdChosen(g, p, env, name, id)
    ensures IdChosen(s, p, env, name, id)
  {
    hide ClaimMatchesIdentity;
    assert g.peers == s.peers && g.mappings == s.mappings;
    assert OfflineTakeovers(g, p, name) == OfflineTakeovers(s, p, name);
    assert AdoptableRows(g, p, name) == AdoptableRows(s, p, name);
  }

  lemma StickyIsReused(s: State, p: Params, now: Time, h: PeerId, s': State, r: Registration)
    requires Inv(s) && StickyAnswer(s, p, now, h, s', r)
    ensures h in s.peers && Reused(s, p, now, h) && r == Registered(h, s.peers[h].peer.name)
  {
    assert h in s.peers && Backed(h, s.peers[h], s.mappings);
  }

  lemma FreshSettles(s: State, g: State, p: Params, env: Env, now: Time, s': State, r: Registration, name: string, id: PeerId)
    requires Inv(g) && g.(retired := s.retired) == s
    requires id !in s.peers && r.Registered? && FreshRegistered(g, p, env, now, id, name, s', r)
    ensures if r.id == id then id in s'.peers && r.name == (if id in s.mappings then s.mappings[id].name else name)
            else r.id in s.peers && Reused(s, p, now, r.id) && r.name == s.peers[r.id].peer.name
  {
    hide Inv, PaneSettled, StickyHolders, Created, StickyAnswer, Hijack, SameWorkspace;
    if h :| StickyAnswer(g, p, now, h, s', r) {
      StickyIsReused(g, p, now, h, s', r);
    } else {
      var pane :| CreatedAnswer(g, p, env, now, id, name, pane, s', r);
      FreshEnds(g, id, name, p, pane, now);
    }
  }

  lemma Settles(s: State, p: Params, env: Env, now: Time, s': State, r: Registration) returns (name: string, id: PeerId)
    requires Inv(s) && MintIsFresh(s, env) && Allocated(s, p, env, now, s', r) && r.Registered?
    ensures Settled(s, p, env, now, s', r, name, id)
  {
    hide NameChosen, IdChosen, Inv, MintIsFresh, FreshRegistered, Reconnected, GuardAccepts, GuardRefuses;
    GuardOnlyUnretires(s, p, env);
    var g := AfterGuard(s, p, env);
    assert g.peers == s.peers && g.mappings == s.mappings;
    name, id :| AllocatedAs(g, p, env, GuardAccepts(s, p, env), now, name, id, s', r);
    SearchIsTheSame(s, g, p, env, name, id);
    if id !in s.peers {
      FreshSettles(s, g, p, env, now, s', r, name, id);
    }
  }

  /** A claim on a record of the same backend, whose path equals the request's or one of the two is unset, is answered
      with that very record. */
  lemma MatchingClaimIsAnswered(s: State, p: Params, env: Env, now: Time, s': State, r: Registration)
    requires Inv(s) && MintIsFresh(s, env) && Allocated(s, p, env, now, s', r)
    requires p.claimed.Some? && p.claimed.value in s.peers
    requires
      var path, wanted := s.peers[p.claimed.value].peer.path, if p.path.Some? then p.path.value else "";
      s.peers[p.claimed.value].peer.backend == p.backend && (path == "" || wanted == "" || path == wanted)
    ensures r.Registered? ==> r.id == p.claimed.value
  {
    hide Allocated, NameChosen, OfflineTakeovers, AdoptableRows;
    if r.Registered? {
      var name, id := Settles(s, p, env, now, s', r);
      assert id == p.claimed.value;
    }
  }

  /** So is a claim on a row without a record, unless a sticky orchestrator is reused for its pane. */
  lemma MatchingRowIsAnswered(s: State, p: Params, env: Env, now: Time, s': State, r: Registration)
    requires Inv(s) && MintIsFresh(s, env) && Allocated(s, p, env, now, s', r)
    requires p.claimed.Some? && p.claimed.value != "" && p.claimed.value !in s.peers && p.claimed.value in s.mappings
    requires
      var m := s.mappings[p.claimed.value];
      var path, wanted := if m.path.Some? then m.path.value else "", if p.path.Some? then p.path.value else "";
      m.backend == p.backend && (path == "" || wanted == "" || path == wanted)
    ensures r.Registered? ==> r.id == p.claimed.value || (r.id in s.peers && Reused(s, p, now, r.id))
  {
    hide Allocated, NameChosen, OfflineTakeovers, AdoptableRows;
    if r.Registered? {
      var name, id := Settles(s, p, env, now, s', r);
      assert id == p.claimed.value;
    }
  }

  /** Whatever id is answered that was known and is no reused orchestrator: its record or its row has the request's
      backend and a path that equals the request's or one of the two is unset; and unless it was claimed, it has the
      request's circle and the answered name. */
  lemma KnownAnswerMatches(s: State, p: Params, env: Env, now: Time, s': State, r: Registration)
    requires Inv(s) && MintIsFresh(s, env) && Allocated(s, p, env, now, s', r)
    requires r.Registered? && r.id in s.mappings && !(r.id in s.peers && Reused(s, p, now, r.id))
    ensures
      var wanted := if p.path.Some? then p.path.value else "";
      var rowPath := if s.mappings[r.id].path.Some? then s.mappings[r.id].path.value else "";
      && s.mappings[r.id].backend == p.backend
      && (|| rowPath == "" || wanted == "" || rowPath == wanted
          || (r.id in s.peers && (s.peers[r.id].peer.path == "" || s.peers[r.id].peer.path == wanted)))
    ensures p.claimed != Some(r.id) ==> s.mappings[r.id].circle == p.circle
    ensures r.name == s.mappings[r.id].name
  {
    hide Allocated, NameChosen;
    var name, id := Settles(s, p, env, now, s', r);
    assert r.id in s.peers ==> Backed(r.id, s.peers[r.id], s.mappings);
    assert r.id == id;
  }

  /** A claim on a record or row of another backend, or of another path with both set, does not by itself bring that id:
      the id is answered only if its circle and its name lead to it as well. */
  lemma MismatchedClaimIsIgnored(s: State, p: Params, env: Env, now: Time, s': State, r: Registration)
    requires Inv(s) && MintIsFresh(s, env) && Allocated(s, p, env, now, s', r)
    requires p.claimed.Some? && p.claimed.value in s.peers && r.Registered? && r.id == p.claimed.value
    requires !Reused(s, p, now, r.id)
    requires
      var path, wanted := s.peers[r.id].peer.path, if p.path.Some? then p.path.value else "";
      s.peers[r.id].peer.backend != p.backend || (path != "" && wanted != "" && path != wanted)
    ensures s.peers[r.id].peer.backend == p.backend && s.peers[r.id].peer.circle == p.circle
    ensures var m := s.mappings[r.id]; m.path.None? || m.path.value == "" || m.path == p.path
  {
    hide Allocated, NameChosen;
    var name, id := Settles(s, p, env, now, s', r);
    assert Backed(r.id, s.peers[r.id], s.mappings);
    assert id == r.id;
  }

  /** An id is minted only when nothing known fits: no record or row that its claim names with equal backend and fitting
      path, no Offline record and no row of the answered name in the circle with equal backend and fitting path. */
  lemma MintMeansNobodyFits(s: State, p: Params, env: Env, now: Time, s': State, r: Registration, o: PeerId)
    requires Inv(s) && MintIsFresh(s, env) && Allocated(s, p, env, now, s', r)
    requires r.Registered? && r.id == env.freshId && "" !in s.mappings
    ensures
      var wanted := if p.path.Some? then p.path.value else "";
      && (o in s.peers && s.peers[o].peer.backend == p.backend
          && (s.peers[o].peer.path == "" || wanted == "" || s.peers[o].peer.path == wanted) ==>
            && p.claimed != Some(o)
            && !(s.peers[o].state == Offline && s.peers[o].peer.name == r.name && s.peers[o].peer.circle == p.circle))
      && (o in s.mappings && s.mappings[o].backend == p.backend
          && (s.mappings[o].path.None? || s.mappings[o].path == Some("") || wanted == "" || s.mappings[o].path == Some(wanted)) ==>
            && (p.claimed == Some(o) ==> o in s.peers)
            && !(s.mappings[o].name == r.name && s.mappings[o].circle == p.circle))
  {
    hide Allocated, NameChosen;
    var name, id := Settles(s, p, env, now, s', r);
    assert id == r.id && name == r.name;
    if o in s.peers {
      assert o in OfflineTakeovers(s, p, name) <==>
        s.peers[o].peer.name == name && s.peers[o].peer.circle == p.circle && s.peers[o].state == Offline
        && ClaimMatchesIdentity(s.peers[o].peer.backend, s.peers[o].peer.path, p.backend, GetOr(p.path, ""));
    }
    if o in s.mappings {
      assert o in AdoptableRows(s, p, name) <==>
        s.mappings[o].name == name && s.mappings[o].circle == p.circle
        && ClaimMatchesIdentity(s.mappings[o].backend, GetOr(s.mappings[o].path, ""), p.backend, GetOr(p.path, ""));
    }
  }

  /** Without a claim, an Offline record of the answered name that fits the circle, backend and path is taken over before
      any row is adopted. */
  lemma TakeoverComesFirst(s: State, p: Params, env: Env, now: Time, s': State, r: Registration, o: PeerId)
    requires Inv(s) && MintIsFresh(s, env) && Allocated(s, p, env, now, s', r)
    requires r.Registered? && p.claimed == None && r.id in s.mappings && !(r.id in s.peers && Reused(s, p, now, r.id))
    requires o in s.peers && s.peers[o].state == Offline
    requires s.peers[o].peer.name == r.name && s.peers[o].peer.circle == p.circle && s.peers[o].peer.backend == p.backend
    requires p.path == None || p.path == Some("") || s.peers[o].peer.path == "" || p.path == Some(s.peers[o].peer.path)
    ensures r.id in s.peers && s.peers[r.id].state == Offline
  {
    hide Allocated, NameChosen;
    var name, id := Settles(s, p, env, now, s', r);
    assert id == r.id;
    assert id in s.peers ==> Backed(id, s.peers[id], s.mappings);
    if name == r.name {
      assert o in OfflineTakeovers(s, p, name);
    }
  }

  // ---------------------------------------------------------------------------
  // Which pane
  // ---------------------------------------------------------------------------

  /** The refusal as a hijack means that a record on the claimed pane, seen within the minute or connected, is run by the
      claimant's parent process; while there is one, nothing but a known record is answered. */
  lemma HijackIsRefused(s: State, p: Params, env: Env, now: Time, s': State, r: Registration)
    requires Inv(s) && MintIsFresh(s, env) && Allocated(s, p, env, now, s', r)
    ensures
      var parents := set o | o in s.peers && p.pane.Some? && p.pane.value != "" && s.peers[o].peer.pane == p.pane
                             && p.parentPid.Some? && s.peers[o].peer.agentPid == p.parentPid
                             && ((s.peers[o].peer.lastSeen.Some? && now - s.peers[o].peer.lastSeen.value <= MINUTE)
                                 || o in env.connectedAtHijack);
      && (r == Refused(PaneHijackRejected) ==> parents != {})
      && (parents != {} && r.Registered? ==> r.id in s.peers && exists name :: Settled(s, p, env, now, s', r, name, r.id))
  {
    hide NameChosen, IdChosen, MintIsFresh, ReconnectAnswer, StickyAnswer, CreatedAnswer, GuardAccepts, GuardRefuses;
    GuardOnlyUnretires(s, p, env);
    var g := AfterGuard(s, p, env);
    assert g.peers == s.peers && g.mappings == s.mappings;
    ParentsHijack(g, p, env, now);
    if !GuardRefuses(s, p, env) {
      var name, id :| AllocatedAs(g, p, env, GuardAccepts(s, p, env), now, name, id, s', r);
      if id in s.peers {
        ReconnectAnswersItself(g, p, GuardAccepts(s, p, env), now, id, s', r);
        ReconnectAnswersName(g, p, GuardAccepts(s, p, env), now, id, s', r);
        SearchIsTheSame(s, g, p, env, name, id);
        assert Settled(s, p, env, now, s', r, name, r.id);
      } else if r.Refused? {
        OnlyHijackRefuses(g, p, env, now, id, name, s', r);
      }
    }
  }

  lemma ReconnectAnswersName(s: State, p: Params, recovered: bool, now: Time, id: PeerId, s': State, r: Registration)
    requires ReconnectAnswer(s, p, recovered, now, id, s', r)
    ensures id in s.peers && r == Registered(id, s.peers[id].peer.name)
  {
  }

  lemma OnlyHijackRefuses(s: State, p: Params, env: Env, now: Time, id: PeerId, name: string, s': State, r: Registration)
    requires FreshRegistered(s, p, env, now, id, name, s', r) && r.Refused?
    ensures Hijack(s, p, env, now)
  {
    hide PaneSettled, Created, StickyHolders;
  }

  lemma ParentsHijack(s: State, p: Params, env: Env, now: Time)
    requires Inv(s)
    ensures
      var parents := set o | o in s.peers && p.pane.Some? && p.pane.value != "" && s.peers[o].peer.pane == p.pane
                             && p.parentPid.Some? && s.peers[o].peer.agentPid == p.parentPid
                             && ((s.peers[o].peer.lastSeen.Some? && now - s.peers[o].peer.lastSeen.value <= MINUTE)
                                 || o in env.connectedAtHijack);
      Hijack(s, p, env, now) <==> parents != {}
  {
    var parents := set o | o in s.peers && p.pane.Some? && p.pane.value != "" && s.peers[o].peer.pane == p.pane
                           && p.parentPid.Some? && s.peers[o].peer.agentPid == p.parentPid
                           && ((s.peers[o].peer.lastSeen.Some? && now - s.peers[o].peer.lastSeen.value <= MINUTE)
                               || o in env.connectedAtHijack);
    forall o | o in s.peers ensures o in parents <==> WantsPane(p) && DirectParent(s.peers[o].peer, p, env, now) {
      assert Backed(o, s.peers[o], s.mappings);
    }
    if parents != {} {
      var o :| o in parents;
      assert DirectParent(s.peers[o].peer, p, env, now);
    }
  }

  /** Orchestrators on the pane, Online or Busy, seen within the minute. */
  function StickyOn(s: State, pane: string, now: Time): set<PeerId> {
    set h | h in s.peers && s.peers[h].peer.pane == Some(pane) && s.peers[h].peer.role == RoleOrchestrator
            && s.peers[h].state in {Online, Busy}
            && s.peers[h].peer.lastSeen.Some? && now - s.peers[h].peer.lastSeen.value <= MINUTE
  }

  /** Records on the pane, Online or Busy, whose agent process is alive, seen within the minute or connected. */
  function AliveOn(s: State, pane: string, env: Env, now: Time): set<PeerId> {
    set h | h in s.peers && s.peers[h].peer.pane == Some(pane) && s.peers[h].state in {Online, Busy}
            && s.peers[h].peer.agentPid.Some? && s.peers[h].peer.agentPid.value in env.aliveAtHolder
            && ((s.peers[h].peer.lastSeen.Some? && now - s.peers[h].peer.lastSeen.value <= MINUTE) || h in env.connectedAtHolder)
  }

  /** Nothing speaks against the claimant running in the pane: it has no pid, or the holder's, or its ancestors cannot be
      read; else the holder is no ancestor, and the pane's root is unknown, the claimant itself or an ancestor. */
  predicate NotDisproven(holder: Option<int>, claimant: Option<int>, env: Env) {
    claimant.Some? && claimant != holder && env.ancestors.Some? ==>
      && (holder.Some? ==> holder.value !in env.ancestors.value)
      && (env.paneRoot.Some? && env.paneRoot != claimant ==> env.paneRoot.value in env.ancestors.value)
  }

  lemma HoldersInFields(s: State, pane: string, env: Env, now: Time)
    requires Inv(s)
    ensures StickyHolders(s, pane, now) == StickyOn(s, pane, now)
    ensures LiveHolders(s, pane, env, now) == AliveOn(s, pane, env, now)
  {
    assert forall o :: o in s.peers ==> Backed(o, s.peers[o], s.mappings);
    assert forall o :: o in s.peers ==> (LiveStatus(s.peers[o].peer) <==> s.peers[o].state in {Online, Busy});
  }

  /** A new record gets the pane it asks for only if no sticky orchestrator is on it and it is free of live holders or
      not disproven against one; it is left without only if there is such an orchestrator or it is disproven against a
      live holder. With one on it, one of them is of another backend or circle. */
  lemma PaneIsGrantedExactlyWhen(s: State, p: Params, env: Env, now: Time, s': State, r: Registration)
    requires Inv(s) && MintIsFresh(s, env) && Allocated(s, p, env, now, s', r)
    requires r.Registered? && r.id !in s.peers && p.pane.Some? && p.pane.value != ""
    ensures r.id in s'.peers
    ensures s'.peers[r.id].peer.pane == p.pane || s'.peers[r.id].peer.pane == None
    ensures
      var sticky, alive := StickyOn(s, p.pane.value, now), AliveOn(s, p.pane.value, env, now);
      && (s'.peers[r.id].peer.pane == p.pane ==>
            sticky == {} && (alive == {} || exists h :: h in alive && NotDisproven(s.peers[h].peer.agentPid, p.agentPid, env)))
      && (s'.peers[r.id].peer.pane == None ==>
            sticky != {} || exists h :: h in alive && !NotDisproven(s.peers[h].peer.agentPid, p.agentPid, env))
      && (sticky != {} ==> exists h :: h in sticky && !(s.peers[h].peer.backend == p.backend && s.peers[h].peer.circle == p.circle))
  {
    hide Allocated, MintIsFresh;
    PanelessLeavesOthersAlone(s, p, env, now, s', r, "");
    HoldersInFields(s, p.pane.value, env, now);
    WorkspaceDiffers(s, p, env, now, s', r);
    forall h | h in s.peers
      ensures PaneClaimProven(s.peers[h].peer, p.agentPid, env) <==> NotDisproven(s.peers[h].peer.agentPid, p.agentPid, env)
    {
    }
  }

  lemma WorkspaceDiffers(s: State, p: Params, env: Env, now: Time, s': State, r: Registration)
    requires Inv(s) && MintIsFresh(s, env) && Allocated(s, p, env, now, s', r)
    requires r.Registered? && r.id !in s.peers && p.pane.Some? && p.pane.value != ""
    ensures StickyHolders(s, p.pane.value, now) != {} ==>
              exists h :: h in StickyHolders(s, p.pane.value, now)
                          && !(s.peers[h].peer.backend == p.backend && s.peers[h].peer.circle == p.circle)
  {
    hide Allocated, MintIsFresh, Inv, PaneSettled, Created;
    var name, pane := FreshShape(s, p, env, now, s', r);
    var g := AfterGuard(s, p, env);
    assert g.peers == s.peers;
    assert StickyHolders(g, p.pane.value, now) == StickyHolders(s, p.pane.value, now);
  }

  /** What happens to a record other than the one answered: nothing, or, if it was Online or Busy on the claimed pane and
      no sticky orchestrator, it goes Offline without a pane, seen now, and is otherwise as it was. */
  lemma DisplacedInFields(s: State, p: Params, env: Env, now: Time, s': State, r: Registration, o: PeerId)
    requires Inv(s) && MintIsFresh(s, env) && Allocated(s, p, env, now, s', r)
    requires o in s.peers && (r.Registered? ==> r.id != o)
    ensures o in s'.peers
    ensures s'.peers[o] != s.peers[o] ==>
              && p.pane.Some? && p.pane.value != "" && s.peers[o].peer.pane == p.pane && s.peers[o].state in {Online, Busy}
              && o !in StickyOn(s, p.pane.value, now)
              && s'.peers[o] == Record(s.peers[o].peer.(status := StatusOffline, pane := None, lastSeen := Some(now)), Offline)
    ensures r.Registered? && r.id in s'.peers && s'.peers[r.id].peer.pane == p.pane && p.pane.Some? && p.pane.value != ""
            && (r.id in s.peers ==> !Reused(s, p, now, r.id))
            && s.peers[o].peer.pane == p.pane && s.peers[o].state in {Online, Busy} && o !in StickyOn(s, p.pane.value, now) ==>
              s'.peers[o] != s.peers[o]
  {
    hide Allocated, MintIsFresh;
    BystandersAreDisplacedAtMost(s, p, env, now, s', r, o);
    assert Backed(o, s.peers[o], s.mappings);
    if p.pane.Some? {
      HoldersInFields(s, p.pane.value, env, now);
    }
    if r.Registered? && r.id in s'.peers && s'.peers[r.id].peer.pane == p.pane && WantsPane(p)
       && (r.id in s.peers ==> !Reused(s, p, now, r.id))
       && s.peers[o].peer.pane == p.pane && s.peers[o].state in {Online, Busy} && o !in StickyOn(s, p.pane.value, now)
       && s'.peers[o] == s.peers[o]
    {
      NobodyElseStays(s, p, env, now, s', r, o);
    }
  }

  lemma NobodyElseStays(s: State, p: Params, env: Env, now: Time, s': State, r: Registration, o: PeerId)
    requires Inv(s) && MintIsFresh(s, env) && Allocated(s, p, env, now, s', r)
    requires r.Registered? && r.id in s'.peers && s'.peers[r.id].peer.pane == p.pane && WantsPane(p)
    requires r.id in s.peers ==> !Reused(s, p, now, r.id)
    requires o in s'.peers && o != r.id && Live(s'.peers[o].state) && s'.peers[o].peer.pane == p.pane
    ensures StickyOrchestrator(s'.peers[o].peer, now)
  {
    hide Allocated, MintIsFresh, Inv;
    if r.id in s.peers {
      var name, id := Settles(s, p, env, now, s', r);
      ReconnectedUnlessReused(s, p, env, now, s', r);
      ReconnectSharesOnlyWithOrchestrators(s, p, env, now, s', r, o);
    } else {
      FreshPaneIsExclusive(s, p, env, now, s', r, o);
      assert false;
    }
  }

  lemma ReconnectedUnlessReused(s: State, p: Params, env: Env, now: Time, s': State, r: Registration)
    requires Inv(s) && MintIsFresh(s, env) && Allocated(s, p, env, now, s', r)
    requires r.Registered? && r.id in s.peers && !Reused(s, p, now, r.id)
    ensures Shaped(s, p, env, now, s', r, InPlace(r.id))
  {
    hide Allocated, MintIsFresh, GuardAccepts, GuardRefuses, Hijack, ReconnectAnswer, CreatedAnswer, StickyAnswer, Inv;
    GuardOnlyUnretires(s, p, env);
    var g := AfterGuard(s, p, env);
    assert g.peers == s.peers;
    var shape := RegistrationShape(s, p, env, now, s', r);
    AnswersName(s, p, env, now, s', r, shape);
    if shape.Reused? {
      StickyIsReused(g, p, now, shape.holder, s', r);
    }
  }

  // ---------------------------------------------------------------------------
  // What is stored
  // ---------------------------------------------------------------------------

  /** A reconnect in place: Online unless it stays Retired, seen now; each of model, pane, tmux session, pid and turn is the
      request's if given and else the record's, a machine that is empty or unknown counting as not given; metadata are
      merged, the request winning; name, path, circle, role, backend and description are the record's. */
  lemma ReconnectStores(s: State, p: Params, env: Env, now: Time, s': State, r: Registration)
    requires Inv(s) && MintIsFresh(s, env) && Allocated(s, p, env, now, s', r)
    requires r.Registered? && r.id in s.peers && !Reused(s, p, now, r.id)
    ensures r.id in s'.peers && r.id in s.mappings && r.id in s'.mappings
    ensures
      var q, q' := s.peers[r.id].peer, s'.peers[r.id].peer;
      && q'.lastSeen == Some(now)
      && q'.model == (if p.model.Some? then p.model else q.model)
      && q'.pane == (if p.pane.Some? then p.pane else q.pane)
      && q'.tmux == (if p.tmux.Some? then p.tmux else q.tmux)
      && q'.machine == (if p.machine in {"", "unknown"} then q.machine else p.machine)
      && q'.agentPid == (if p.agentPid.Some? then p.agentPid else q.agentPid)
      && q'.turn == (if p.turn.Some? then p.turn.value else q.turn)
      && q'.metadata == q.metadata + p.metadata
      && (q'.id, q'.name, q'.path, q'.circle, q'.role) == (q.id, q.name, q.path, q.circle, q.role)
      && (q'.backend, q'.description) == (q.backend, q.description)
      && (s'.peers[r.id].state == Online || (s.peers[r.id].state == Retired && s'.peers[r.id].state == Retired))
      && q'.status == (if s'.peers[r.id].state == Online then StatusOnline else StatusOffline)
    ensures
      var m, m' := s.mappings[r.id], s'.mappings[r.id];
      m' == m.(updatedAt := now, model := if p.model.Some? then p.model else m.model,
               agentPid := if p.agentPid.Some? then p.agentPid else m.agentPid)
  {
    hide Allocated, MintIsFresh, GuardAccepts, GuardRefuses;
    GuardOnlyUnretires(s, p, env);
    ReconnectedUnlessReused(s, p, env, now, s', r);
    ReconnectedInFields(AfterGuard(s, p, env), p, GuardAccepts(s, p, env), now, r.id, s', r);
  }

  /** When a known record is answered that is not reconnected, it is a reused orchestrator: seen now, with the request's
      model and turn if given, and otherwise as it was; nobody else and no row is touched. */
  lemma ReuseStores(s: State, p: Params, env: Env, now: Time, s': State, r: Registration)
    requires Inv(s) && MintIsFresh(s, env) && Allocated(s, p, env, now, s', r)
    requires r.Registered? && r.id in s.peers && !Shaped(s, p, env, now, s', r, InPlace(r.id))
    ensures Reused(s, p, now, r.id) && s'.mappings == s.mappings
    ensures
      var q := s.peers[r.id].peer;
      s'.peers == s.peers[r.id := Record(
        q.(lastSeen := Some(now), model := if p.model.Some? then p.model else q.model,
           turn := if p.turn.Some? then p.turn.value else q.turn), s.peers[r.id].state)]
  {
    hide Allocated, MintIsFresh, GuardAccepts, GuardRefuses, Hijack, ReconnectAnswer, CreatedAnswer, StickyAnswer, Inv;
    GuardOnlyUnretires(s, p, env);
    var g := AfterGuard(s, p, env);
    assert g.peers == s.peers && g.mappings == s.mappings;
    var shape := RegistrationShape(s, p, env, now, s', r);
    AnswersName(s, p, env, now, s', r, shape);
    if shape.Reused? {
      StickyIsReused(g, p, now, shape.holder, s', r);
      StickyInFields(g, p, now, shape.holder, s', r);
    }
  }

  lemma StickyInFields(s: State, p: Params, now: Time, h: PeerId, s': State, r: Registration)
    requires StickyAnswer(s, p, now, h, s', r)
    ensures h in s.peers && s' == StickyTouched(s, h, p, now)
  {
  }

  lemma ReconnectedInFields(s: State, p: Params, recovered: bool, now: Time, id: PeerId, s': State, r: Registration)
    requires Inv(s) && ReconnectAnswer(s, p, recovered, now, id, s', r)
    ensures id in s'.peers && s'.peers[id] == Refreshed(s.peers[id], p, recovered, now)
    ensures id in s.mappings && id in s'.mappings
    ensures s'.mappings[id] == s.mappings[id].(updatedAt := now, model := if p.model.Some? then p.model else s.mappings[id].model,
                                               agentPid := if p.agentPid.Some? then p.agentPid else s.mappings[id].agentPid)
    ensures s.peers[id].state != Unregistered && InLockstep(s.peers[id])
  {
    hide PaneReleased, Refreshed;
    assert Backed(id, s.peers[id], s.mappings);
    TakingSparesKeeper(s.peers[id := Refreshed(s.peers[id], p, recovered, now)], p.pane, id, now);
  }

  /** A record stored anew: Online, seen now, with the request's path, machine, tmux session, backend, metadata, pid and
      turn; a durable row gives name, circle, role and description, and the model the request leaves out; else the request
      gives them, with an empty description. The row follows. */
  lemma NewRecordStores(s: State, p: Params, env: Env, now: Time, s': State, r: Registration)
    requires Inv(s) && MintIsFresh(s, env) && Allocated(s, p, env, now, s', r)
    requires r.Registered? && r.id !in s.peers
    ensures r.id in s'.peers && r.id in s'.mappings
    ensures
      var q, m := s'.peers[r.id].peer, s'.mappings[r.id];
      && s'.peers[r.id].state == Online && q.status == StatusOnline && q.lastSeen == Some(now) && q.id == r.id && q.name == r.name
      && (q.path, q.machine, q.tmux, q.backend) == (if p.path.Some? then p.path.value else "", p.machine, p.tmux, p.backend)
      && q.metadata == p.metadata && q.agentPid == p.agentPid
      && q.turn == (if p.turn.Some? then p.turn.value else TurnUnknown)
      && (r.id in s.mappings ==>
            && (q.name, q.circle, q.role, q.description) ==
                 (s.mappings[r.id].name, s.mappings[r.id].circle, s.mappings[r.id].role, s.mappings[r.id].description)
            && q.model == if p.model.Some? then p.model else s.mappings[r.id].model)
      && (r.id !in s.mappings ==> (q.circle, q.role, q.description, q.model) == (p.circle, p.role, "", p.model))
      && m == Mapping(r.id, q.name, q.circle, p.backend, p.path, q.role, now, q.description, q.model, p.agentPid)
  {
    hide Allocated, MintIsFresh, Inv, GuardAccepts, GuardRefuses, PaneSettled, StickyHolders;
    var name, pane := FreshShape(s, p, env, now, s', r);
    var g := AfterGuard(s, p, env);
    assert g.peers == s.peers && g.mappings == s.mappings;
    CreatedInFields(g, p, env, now, r.id, name, pane, s', r);
  }

  lemma CreatedInFields(s: State, p: Params, env: Env, now: Time, id: PeerId, name: string, pane: Option<string>,
                        s': State, r: Registration)
    requires CreatedAnswer(s, p, env, now, id, name, pane, s', r)
    ensures id in s'.peers && s'.peers[id] == FreshRecord(RestoredRow(s, id, name, p, now), p, pane, now)
    ensures id in s'.mappings && s'.mappings[id] == RestoredRow(s, id, name, p, now)
    ensures r == Registered(id, RestoredRow(s, id, name, p, now).name)
  {
    hide PaneReleased, FreshRecord, RestoredRow, PaneSettled, StickyHolders;
    TakingSparesKeeper(s.peers[id := FreshRecord(RestoredRow(s, id, name, p, now), p, pane, now)], pane, id, now);
  }

  // ---------------------------------------------------------------------------
  // Which name
  // ---------------------------------------------------------------------------

  /** The first non-empty text under these keys, in this order; empty if there is none. */
  function FirstText(m: Metadata, keys: seq<string>): string {
    if keys == [] then ""
    else if keys[0] in m && m[keys[0]].Text? && m[keys[0]].text != "" then m[keys[0]].text
    else FirstText(m, keys[1..])
  }

  const SESSION_KEYS: seq<string> := ["hook_session_id", "runtime_session_id", "session_id"]

  lemma SessionIsFirstText(m: Metadata)
    ensures RuntimeSession(m) == FirstText(m, SESSION_KEYS)
  {
    var last, later := ["session_id"], ["runtime_session_id", "session_id"];
    assert SESSION_KEYS[1..] == later && later[1..] == last && last[1..] == [];
    assert FirstText(m, last) == SessionAt(m, "session_id");
    assert FirstText(m, later) == if SessionAt(m, "runtime_session_id") != "" then SessionAt(m, "runtime_session_id") else FirstText(m, last);
  }

  /** A minted peer gets the first name if every holder of it in the circle is Offline or of the request's session, and not
      if there are holders and none of them is; the first name is the preferred one, else folder and backend, the folder
      being "peer" without a path. In the second case it gets the number two if nobody in the circle holds that. */
  lemma MintedName(s: State, p: Params, env: Env, now: Time, s': State, r: Registration)
    requires Inv(s) && MintIsFresh(s, env) && Allocated(s, p, env, now, s', r)
    requires r.Registered? && r.id == env.freshId
    ensures
      var preferred := p.preferred.Some? && p.preferred.value != "";
      var stem := if preferred then p.preferred.value else if p.path.Some? && p.path.value != "" then p.folder else "peer";
      var first, second := if preferred then stem else stem + "-" + p.backend,
                           if preferred then stem + "-2" else stem + "-2-" + p.backend;
      var holders := set o | o in s.peers && s.peers[o].peer.name == first && s.peers[o].peer.circle == p.circle;
      var session := FirstText(p.metadata, SESSION_KEYS);
      var passable := set o | o in holders && (s.peers[o].state == Offline ||
                                (session != "" && FirstText(s.peers[o].peer.metadata, SESSION_KEYS) == session));
      && (passable == holders ==> r.name == first)
      && (passable == {} && holders != {} ==> r.name != first)
      && ((passable == {} && holders != {}
           && forall o :: o in s.peers && s.peers[o].peer.circle == p.circle ==> s.peers[o].peer.name != second) ==>
            r.name == second)
  {
    hide Allocated, IdChosen, MintIsFresh;
    var name, id := Settles(s, p, env, now, s', r);
    MintIsSettled(s, p, env, now, s', r, name, id);
    FirstNames(p);
    SessionIsFirstText(p.metadata);
    forall o | o in s.peers ensures RuntimeSession(s.peers[o].peer.metadata) == FirstText(s.peers[o].peer.metadata, SESSION_KEYS) {
      SessionIsFirstText(s.peers[o].peer.metadata);
    }
    NameFollowsHolders(s.peers, Seed(p), p.circle, RuntimeSession(p.metadata), name);
  }

  lemma MintIsSettled(s: State, p: Params, env: Env, now: Time, s': State, r: Registration, name: string, id: PeerId)
    requires MintIsFresh(s, env) && Settled(s, p, env, now, s', r, name, id) && r.id == env.freshId
    ensures r.name == name
  {
    hide NameChosen, IdChosen;
  }

  lemma FirstNames(p: Params)
    ensures
      var preferred := p.preferred.Some? && p.preferred.value != "";
      var stem := if preferred then p.preferred.value else if p.path.Some? && p.path.value != "" then p.folder else "peer";
      && Candidate(Seed(p), 1) == (if preferred then stem else stem + "-" + p.backend)
      && Candidate(Seed(p), 2) == (if preferred then stem + "-2" else stem + "-2-" + p.backend)
  {
    assert Decimal(2) == "2";
  }

  /** What the holders of the first candidate say about the name chosen. */
  lemma NameFollowsHolders(peers: map<PeerId, Record>, seed: NameSeed, circle: string, session: string, name: string)
    requires NameChosen(peers, seed, circle, session, name)
    ensures
      var holders := set o | o in peers && peers[o].peer.name == Candidate(seed, 1) && peers[o].peer.circle == circle;
      var passable := set o | o in holders && (peers[o].state == Offline || (session != "" && RuntimeSession(peers[o].peer.metadata) == session));
      && (passable == holders ==> name == Candidate(seed, 1))
      && (passable == {} && holders != {} ==> name != Candidate(seed, 1))
      && ((passable == {} && holders != {}
           && forall o :: o in peers && peers[o].peer.circle == circle ==> peers[o].peer.name != Candidate(seed, 2)) ==>
            name == Candidate(seed, 2))
  {
    hide RuntimeSession, Candidate;
    var k: nat :| 1 <= k <= |peers| + 1 && name == Candidate(seed, k) && Accepted(peers, seed, circle, session, k)
      && forall j: nat :: 1 <= j < k ==> Rejected(peers, seed, circle, session, j);
    if k > 1 {
      CandidatesDistinct(seed, 1, k);
      assert Rejected(peers, seed, circle, session, 1);
    }
    if k > 2 {
      assert Rejected(peers, seed, circle, session, 2);
    }
    var holders := set o | o in peers && peers[o].peer.name == Candidate(seed, 1) && peers[o].peer.circle == circle;
    var passable := set o | o in holders && (peers[o].state == Offline || (session != "" && RuntimeSession(peers[o].peer.metadata) == session));
    forall o | o in peers ensures Blocks(peers[o], Candidate(seed, 1), circle) <==> o in holders {
    }
    forall o | o in holders ensures Passable(peers[o], session) <==> o in passable {
    }
  }
}
