/** How far a tombstone holds: the guard of registration reads it for the claimed id only, while taking over an Offline
    record and adopting a durable row never look at it. */
module TombstoneLaws {
  import opened Fsm
  import opened Peers
  import opened Naming
  import opened RegistrySpec
  import opened RegistrationLaws

  /** A tombstoned id without a live record. */
  predicate Dormant(s: State, id: PeerId) {
    id in s.retired && (id in s.peers ==> !Live(s.peers[id].state))
  }

  /** The pane gates let a new record be stored, for some choice among the sticky holders. */
  ghost predicate GatesAdmit(s: State, p: Params, env: Env, now: Time) {
    && !Hijack(s, p, env, now)
    && (WantsPane(p) && StickyHolders(s, p.pane.value, now) != {} ==>
          exists h :: h in StickyHolders(s, p.pane.value, now) && !SameWorkspace(s.peers[h].peer, p))
  }

  /** Settling on id brings it to life: its record reconnects, or one is created for its row. */
  ghost predicate Awakens(s: State, p: Params, env: Env, recovered: bool, now: Time, id: PeerId) {
    if id in s.peers then s.peers[id].state == Offline || (s.peers[id].state == Retired && recovered)
    else GatesAdmit(s, p, env, now)
  }

  /** Some name leads the registration to id by takeover, or else by adoption, and wakes it. */
  ghost predicate LedTo(s: State, p: Params, env: Env, recovered: bool, now: Time, id: PeerId) {
    exists name ::
      && NameChosen(s.peers, Seed(p), p.circle, RuntimeSession(p.metadata), name)
      && (id in OfflineTakeovers(s, p, name)
          || (OfflineTakeovers(s, p, name) == {} && id in AdoptableRows(s, p, name)
              && Awakens(s, p, env, recovered, now, id)))
  }

  /** Before the call: the guard lets the request through and leaves the tombstone of id, the claim is of no use, and
      name, circle, backend and path lead to id. */
  ghost predicate MayWakeDormant(s: State, p: Params, env: Env, now: Time, id: PeerId) {
    && Dormant(s, id) && id != ""
    && !GuardRefuses(s, p, env) && !(GuardAccepts(s, p, env) && p.claimed == Some(id))
    && !ClaimUsable(s, p)
    && LedTo(s, p, env, GuardAccepts(s, p, env), now, id)
  }

  /** The answer is a dormant id, live now under its standing tombstone. */
  predicate WakesDormant(s: State, s': State, r: Registration, id: PeerId) {
    && Dormant(s, id) && r.Registered? && r.id == id
    && id in s'.retired && id in s'.peers && Live(s'.peers[id].state)
  }

  ghost predicate CanWakeDormant(s: State, p: Params, env: Env, now: Time, id: PeerId) {
    exists s', r :: Allocated(s, p, env, now, s', r) && WakesDormant(s, s', r, id)
  }

  // ---------------------------------------------------------------------------
  // Only if
  // ---------------------------------------------------------------------------

  /** The search for an id does not see tombstones. */
  lemma SearchIgnoresTombstones(s: State, g: State, p: Params, env: Env, recovered: bool, now: Time, id: PeerId)
    requires g.(retired := s.retired) == s
    ensures ClaimUsable(g, p) == ClaimUsable(s, p)
    ensures LedTo(g, p, env, recovered, now, id) <==> LedTo(s, p, env, recovered, now, id)
  {
    hide NameChosen, ClaimMatchesIdentity, SameWorkspace, StickyOrchestrator, DirectParent;
    assert g.peers == s.peers && g.mappings == s.mappings;
    forall name
      ensures OfflineTakeovers(g, p, name) == OfflineTakeovers(s, p, name)
      ensures AdoptableRows(g, p, name) == AdoptableRows(s, p, name)
    {
    }
    assert WantsPane(p) ==> StickyHolders(g, p.pane.value, now) == StickyHolders(s, p.pane.value, now);
    assert Awakens(g, p, env, recovered, now, id) <==> Awakens(s, p, env, recovered, now, id);
  }

  lemma TakeoverIsOffline(s: State, p: Params, name: string, id: PeerId)
    requires id in OfflineTakeovers(s, p, name)
    ensures id in s.peers && s.peers[id].state == Offline
  {
  }

  lemma RecordStates(s: State, id: PeerId)
    requires Inv(s) && id in s.peers
    ensures id != "" && (Live(s.peers[id].state) || s.peers[id].state == Offline || s.peers[id].state == Retired)
  {
    assert Backed(id, s.peers[id], s.mappings);
  }

  /** After the guard: an id that ends live and tombstoned, and was dormant, was led to. */
  lemma WokenWasLedTo(g: State, p: Params, env: Env, recovered: bool, now: Time, name: string, chosen: PeerId, s': State,
                      r: Registration, id: PeerId)
    requires Inv(g) && MintIsFresh(g, env) && !ClaimUsable(g, p)
    requires AllocatedAs(g, p, env, recovered, now, name, chosen, s', r)
    requires Dormant(g, id) && r.Registered? && r.id == id && id in s'.peers && Live(s'.peers[id].state)
    ensures id != "" && LedTo(g, p, env, recovered, now, id)
  {
    hide NameChosen, OfflineTakeovers, AdoptableRows, Inv, Live, FreshRegistered, ReconnectAnswer, GatesAdmit;
    if chosen in g.peers {
      ReconnectAnswersItself(g, p, recovered, now, chosen, s', r);
      ReconnectedState(g, p, recovered, now, chosen, s', r);
      RecordStates(g, id);
    } else {
      FreshAnswersItself(g, p, env, now, chosen, name, s', r);
      if chosen in OfflineTakeovers(g, p, name) {
        TakeoverIsOffline(g, p, name, chosen);
      }
    }
  }

  lemma ReconnectedState(s: State, p: Params, recovered: bool, now: Time, id: PeerId, s': State, r: Registration)
    requires Inv(s) && ReconnectAnswer(s, p, recovered, now, id, s', r)
    ensures id in s'.peers && (Live(s'.peers[id].state) <==> s.peers[id].state != Retired || recovered)
  {
    hide Inv, Reconnected;
    InPlaceEnds(s, id, p, recovered, now);
  }

  /** An answer without a record of its own id before is that id's, admitted by the gates, or a live holder reused. */
  lemma FreshAnswersItself(s: State, p: Params, env: Env, now: Time, id: PeerId, name: string, s': State, r: Registration)
    requires Inv(s) && r.Registered? && FreshRegistered(s, p, env, now, id, name, s', r)
    ensures (r.id == id && GatesAdmit(s, p, env, now)) || (r.id in s.peers && Live(s.peers[r.id].state))
  {
    hide Inv, PaneSettled, RestoredRow, Created, StickyAnswer, StickyHolders, SameWorkspace, Hijack;
    if h :| StickyAnswer(s, p, now, h, s', r) {
      ReusedIsKnown(s, p, now, h, s', r);
      StickyEnds(s, h, p, now, s', r);
    } else {
      var pane :| CreatedAnswer(s, p, env, now, id, name, pane, s', r);
      CreatedHoldsPane(s, p, env, now, id, name, pane, s', r);
    }
  }

  lemma UsableClaimIsAnswered(s: State, p: Params, env: Env, now: Time, s': State, r: Registration)
    requires Inv(s) && MintIsFresh(s, env) && Allocated(s, p, env, now, s', r)
    requires ClaimUsable(s, p) && r.Registered?
    ensures p.claimed.Some? && (r.id == p.claimed.value || (r.id in s.peers && Live(s.peers[r.id].state)))
  {
    hide NameChosen, OfflineTakeovers, AdoptableRows, Inv, Live, FreshRegistered, ReconnectAnswer, GuardAccepts, GuardRefuses,
         ClaimMatchesIdentity, MintIsFresh;
    GuardOnlyUnretires(s, p, env);
    var g := AfterGuard(s, p, env);
    assert g.peers == s.peers && g.mappings == s.mappings;
    var name, id :| AllocatedAs(g, p, env, GuardAccepts(s, p, env), now, name, id, s', r);
    if id in g.peers {
      ReconnectAnswersItself(g, p, GuardAccepts(s, p, env), now, id, s', r);
    } else {
      FreshAnswersItself(g, p, env, now, id, name, s', r);
    }
  }

  lemma WokenMayBe(s: State, p: Params, env: Env, now: Time, s': State, r: Registration, id: PeerId)
    requires Inv(s) && MintIsFresh(s, env)
    requires Allocated(s, p, env, now, s', r) && WakesDormant(s, s', r, id)
    ensures MayWakeDormant(s, p, env, now, id)
  {
    hide AllocatedAs, ClaimUsable, LedTo, Inv, MintIsFresh, Live;
    GuardOnlyUnretires(s, p, env);
    RegistrantIsLiveExactlyWhen(s, p, env, now, s', r);
    var g, recovered := AfterGuard(s, p, env), GuardAccepts(s, p, env);
    SearchIgnoresTombstones(s, g, p, env, recovered, now, id);
    if ClaimUsable(s, p) {
      UsableClaimIsAnswered(s, p, env, now, s', r);
      assert false;
    }
    var name, chosen :| AllocatedAs(g, p, env, recovered, now, name, chosen, s', r);
    assert g.peers == s.peers;
    WokenWasLedTo(g, p, env, recovered, now, name, chosen, s', r, id);
  }

  // ---------------------------------------------------------------------------
  // If
  // ---------------------------------------------------------------------------

  lemma SomePaneSettles(s: State, p: Params, env: Env, now: Time) returns (pane: Option<string>)
    ensures PaneSettled(s, p, env, now, pane)
  {
    hide LiveHolder, StickyOrchestrator, PaneClaimProven;
    if !WantsPane(p) {
      pane := p.pane;
    } else if StickyHolders(s, p.pane.value, now) != {} {
      pane := None;
    } else if h :| h in LiveHolders(s, p.pane.value, env, now) {
      pane := if PaneClaimProven(s.peers[h].peer, p.agentPid, env) then p.pane else None;
    } else {
      pane := p.pane;
    }
  }

  /** After the guard: an id that is led to can be what the registration answers, live. */
  lemma LedToCanWake(g: State, p: Params, env: Env, recovered: bool, now: Time, id: PeerId)
    returns (name: string, s': State, r: Registration)
    requires Inv(g) && MintIsFresh(g, env) && !ClaimUsable(g, p) && id != ""
    requires LedTo(g, p, env, recovered, now, id)
    ensures AllocatedAs(g, p, env, recovered, now, name, id, s', r)
    ensures r.Registered? && r.id == id && id in s'.peers && Live(s'.peers[id].state) && s'.retired == g.retired
  {
    hide NameChosen, OfflineTakeovers, AdoptableRows, Inv, MintIsFresh, Reconnected, GatesAdmit, FreshRegistered, Live;
    name :| NameChosen(g.peers, Seed(p), p.circle, RuntimeSession(p.metadata), name)
            && (id in OfflineTakeovers(g, p, name)
                || (OfflineTakeovers(g, p, name) == {} && id in AdoptableRows(g, p, name)
                    && Awakens(g, p, env, recovered, now, id)));
    if id in OfflineTakeovers(g, p, name) {
      TakeoverIsOffline(g, p, name, id);
    }
    if id in g.peers {
      s', r := Reconnected(g, id, p, recovered, now), Registered(id, g.peers[id].peer.name);
      InPlaceEnds(g, id, p, recovered, now);
    } else {
      s', r := AdmittedFresh(g, p, env, now, id, name);
    }
    assert IdChosen(g, p, env, name, id);
  }

  lemma AdmittedFresh(s: State, p: Params, env: Env, now: Time, id: PeerId, name: string)
    returns (s': State, r: Registration)
    requires GatesAdmit(s, p, env, now)
    ensures FreshRegistered(s, p, env, now, id, name, s', r)
    ensures r.Registered? && r.id == id && id in s'.peers && Live(s'.peers[id].state) && s'.retired == s.retired
  {
    hide PaneSettled, Created, RestoredRow, StickyHolders, Hijack, SameWorkspace, StickyAnswer;
    var pane := SomePaneSettles(s, p, env, now);
    s', r := Created(s, id, name, p, pane, now), Registered(id, RestoredRow(s, id, name, p, now).name);
    FreshEnds(s, id, name, p, pane, now);
    assert CreatedAnswer(s, p, env, now, id, name, pane, s', r);
  }

  lemma MayBeWoken(s: State, p: Params, env: Env, now: Time, id: PeerId)
    requires Inv(s) && MintIsFresh(s, env) && MayWakeDormant(s, p, env, now, id)
    ensures CanWakeDormant(s, p, env, now, id)
  {
    hide AllocatedAs, ClaimUsable, LedTo, Inv, MintIsFresh, Live;
    GuardOnlyUnretires(s, p, env);
    var g, recovered := AfterGuard(s, p, env), GuardAccepts(s, p, env);
    SearchIgnoresTombstones(s, g, p, env, recovered, now, id);
    var name, s', r := LedToCanWake(g, p, env, recovered, now, id);
    assert Allocated(s, p, env, now, s', r) && WakesDormant(s, s', r, id);
  }

  /** Told before the call: some order of the map iterations lets a registration bring a tombstoned id to life without
      lifting its tombstone if and only if the claim is of no use, the guard finds nothing against the request, and its
      name leads to the id: by an Offline record to take over, or with none by a row to adopt, whose record is Offline or
      Retired with another tombstone lifted by proof, or, without a record, is admitted by the pane gates. */
  lemma WakesDormantExactlyWhen(s: State, p: Params, env: Env, now: Time, id: PeerId)
    requires Inv(s) && MintIsFresh(s, env)
    ensures CanWakeDormant(s, p, env, now, id) <==> MayWakeDormant(s, p, env, now, id)
  {
    hide MayWakeDormant, WakesDormant, Inv, MintIsFresh, Allocated;
    if MayWakeDormant(s, p, env, now, id) {
      MayBeWoken(s, p, env, now, id);
    }
    if CanWakeDormant(s, p, env, now, id) {
      var s', r :| Allocated(s, p, env, now, s', r) && WakesDormant(s, s', r, id);
      WokenMayBe(s, p, env, now, s', r, id);
    }
  }
}
