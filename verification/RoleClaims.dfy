/** The singleton orchestrator claim (daemon-go/peer/claim_role.go). */
module RoleClaims {
  import opened Fsm
  import opened Peers
  import opened Resolution
  import opened RegistrySpec
  import opened Collections

  datatype ClaimOutcome =
    | BadRole
    | UnknownPeer
    | AmbiguousPeer
    | Conflict(holder: PeerId)
    | Claimed(target: PeerId, alreadyHeld: bool, previous: seq<PeerId>)

  /** The circle the claim is about: the argument unless absent or empty, else the target's. */
  function ClaimCircle(target: Peer, circle: Option<string>): string {
    if GetOr(circle, "") != "" then circle.value else target.circle
  }

  /** An orchestrator that cannot be demoted: live, and fresh or connected. */
  predicate Entrenched(p: Peer, connected: set<PeerId>, tolerance: Time, now: Time) {
    p.role == RoleOrchestrator && LiveStatus(p) && (SeenWithin(p, now, tolerance) || p.id in connected)
  }

  function Blockers(s: State, target: PeerId, circle: string, connected: set<PeerId>, tolerance: Time, now: Time): set<PeerId> {
    set id | id in s.peers && id != target && s.peers[id].peer.circle == circle &&
             Entrenched(s.peers[id].peer, connected, tolerance, now)
  }

  /** One no other blocker was seen after. */
  ghost predicate LatestBlocker(s: State, target: PeerId, circle: string, connected: set<PeerId>, tolerance: Time,
                                now: Time, id: PeerId)
  {
    && id in Blockers(s, target, circle, connected, tolerance, now)
    && forall o :: o in Blockers(s, target, circle, connected, tolerance, now) && o in s.peers ==>
         !SeenAfter(s.peers[o].peer, s.peers[id].peer)
  }

  /** Everyone else the durable table knows as orchestrator of the circle. */
  function FormerHolders(s: State, target: PeerId, circle: string): set<PeerId> {
    set id | id in s.mappings && id != target && s.mappings[id].circle == circle && s.mappings[id].role == RoleOrchestrator
  }

  function RoleAfter(id: PeerId, circle: string, role: Role, target: PeerId, claimed: string): Role {
    if id == target then RoleOrchestrator
    else if circle == claimed && role == RoleOrchestrator then RoleAgent
    else role
  }

  /** The state after a claim: roles as RoleAfter says, in records and in rows. */
  function AfterClaim(s: State, target: PeerId, circle: string, now: Time): State
    requires target in s.peers
  {
    s.(peers := map id | id in s.peers ::
         var q := s.peers[id].peer;
         s.peers[id].(peer := q.(role := RoleAfter(id, q.circle, q.role, target, circle),
                                 lastSeen := if id == target then Some(now) else q.lastSeen)),
       mappings := map id | id in s.mappings ::
         var m := s.mappings[id];
         m.(role := RoleAfter(id, m.circle, m.role, target, circle),
            updatedAt := if id == target || id in FormerHolders(s, target, circle) then now else m.updatedAt),
       dirty := true,
       version := s.version + 1 + |FormerHolders(s, target, circle)|)
  }

  /** The former holders that have a live record. */
  function LiveFormerHolders(s: State, target: PeerId, circle: string): set<PeerId> {
    set id | id in s.peers && id in FormerHolders(s, target, circle)
  }

  /** The state part-way through a claim: `done` demoted so far, the target crowned or not yet. */
  function Phase(s: State, done: set<PeerId>, target: PeerId, crowned: bool, now: Time): State {
    s.(peers := map id | id in s.peers ::
         if id == target && crowned then s.peers[id].(peer := s.peers[id].peer.(role := RoleOrchestrator, lastSeen := Some(now)))
         else if id in done then s.peers[id].(peer := s.peers[id].peer.(role := RoleAgent))
         else s.peers[id],
       mappings := map id | id in s.mappings ::
         if id == target && crowned then s.mappings[id].(role := RoleOrchestrator, updatedAt := now)
         else if id in done then s.mappings[id].(role := RoleAgent, updatedAt := now)
         else s.mappings[id],
       dirty := s.dirty || done != {} || crowned,
       version := s.version + |done| + if crowned then 1 else 0)
  }

  lemma PhaseBegins(s: State, target: PeerId, now: Time)
    ensures Phase(s, {}, target, false, now) == s
  {
  }

  /** Demoting one more holder, its record if it has one and its row. */
  lemma PhaseDemotes(s: State, done: set<PeerId>, target: PeerId, crowned: bool, now: Time, id: PeerId)
    requires id !in done && id != target && id in s.mappings
    ensures var x := Phase(s, done, target, crowned, now);
            Phase(s, done + {id}, target, crowned, now) ==
              MarkedDirty(x.(
                peers := if id in s.peers then x.peers[id := x.peers[id].(peer := x.peers[id].peer.(role := RoleAgent))] else x.peers,
                mappings := x.mappings[id := x.mappings[id].(role := RoleAgent, updatedAt := now)]))
  {
    var x, y := Phase(s, done, target, crowned, now), Phase(s, done + {id}, target, crowned, now);
    assert y.peers == if id in s.peers then x.peers[id := x.peers[id].(peer := x.peers[id].peer.(role := RoleAgent))] else x.peers;
  }

  lemma PhaseCrowns(s: State, done: set<PeerId>, target: PeerId, now: Time)
    requires target !in done && target in s.peers && target in s.mappings
    ensures var x := Phase(s, done, target, false, now);
            Phase(s, done, target, true, now) ==
              MarkedDirty(x.(
                peers := x.peers[target := x.peers[target].(peer :=
                           x.peers[target].peer.(role := RoleOrchestrator, lastSeen := Some(now)))],
                mappings := x.mappings[target := x.mappings[target].(role := RoleOrchestrator, updatedAt := now)]))
  {
  }

  /** What is found under an id part-way through. */
  lemma PhaseAt(s: State, done: set<PeerId>, target: PeerId, crowned: bool, now: Time, id: PeerId)
    ensures var x := Phase(s, done, target, crowned, now);
            && x.peers.Keys == s.peers.Keys && x.mappings.Keys == s.mappings.Keys
            && (id in s.peers && id !in done && !(id == target && crowned) ==> x.peers[id] == s.peers[id])
            && (id in s.peers && id in done && id != target ==> x.peers[id].peer.role == RoleAgent)
            && (id in s.mappings && id != target ==>
                  x.mappings[id] == if id in done then s.mappings[id].(role := RoleAgent, updatedAt := now) else s.mappings[id])
  {
  }

  lemma HoldsByRow(s: State, target: PeerId, circle: string, id: PeerId)
    ensures id in FormerHolders(s, target, circle) <==>
              id in s.mappings && id != target && s.mappings[id].circle == circle && s.mappings[id].role == RoleOrchestrator
    ensures id in LiveFormerHolders(s, target, circle) <==> id in s.peers && id in FormerHolders(s, target, circle)
  {
  }

  lemma LiveHoldersHaveRecords(s: State, target: PeerId, circle: string)
    ensures LiveFormerHolders(s, target, circle) <= FormerHolders(s, target, circle) <= s.mappings.Keys
    ensures LiveFormerHolders(s, target, circle) <= s.peers.Keys
  {
  }

  /** A record and its row agree on whether the peer is a former holder. */
  lemma AgreeOnHolding(s: State, target: PeerId, circle: string, id: PeerId)
    requires Inv(s) && id in s.peers
    ensures id in s.mappings
    ensures id in LiveFormerHolders(s, target, circle) <==>
              id != target && s.peers[id].peer.circle == circle && s.peers[id].peer.role == RoleOrchestrator
    ensures id in LiveFormerHolders(s, target, circle) ==> s.mappings[id].role == RoleOrchestrator
  {
    assert Backed(id, s.peers[id], s.mappings);
  }

  lemma TargetIsNoFormerHolder(s: State, target: PeerId, circle: string)
    requires Inv(s) && target in s.peers
    ensures target in s.mappings && target !in LiveFormerHolders(s, target, circle)
  {
    assert Backed(target, s.peers[target], s.mappings);
  }

  /** Once every other former holder is done and the target crowned, the claim is complete. */
  lemma PhaseCompletes(s: State, target: PeerId, circle: string, now: Time)
    requires Inv(s) && target in s.peers
    ensures Phase(s, FormerHolders(s, target, circle), target, true, now) == AfterClaim(s, target, circle, now)
  {
    hide Inv;
    var x, y := Phase(s, FormerHolders(s, target, circle), target, true, now), AfterClaim(s, target, circle, now);
    forall id | id in s.peers ensures x.peers[id] == y.peers[id] {
      AgreeOnHolding(s, target, circle, id);
    }
    assert x.mappings.Keys == y.mappings.Keys;
    assert x.peers == y.peers && x.mappings == y.mappings;
  }

  /** ClaimSpecialRole once the identifier has resolved to `target`. */
  ghost predicate ClaimDecided(s: State, target: PeerId, circle: Option<string>, connected: set<PeerId>,
                               tolerance: Time, now: Time, s': State, out: ClaimOutcome)
    requires target in s.peers
  {
    var c := ClaimCircle(s.peers[target].peer, circle);
    if Blockers(s, target, c, connected, tolerance, now) != {} then
      s' == s && out.Conflict? && LatestBlocker(s, target, c, connected, tolerance, now, out.holder)
    else
      && s' == AfterClaim(s, target, c, now)
      && out.Claimed? && out.target == target
      && out.alreadyHeld == (s.peers[target].peer.role == RoleOrchestrator)
      && Elements(out.previous) == FormerHolders(s, target, c)
      && |out.previous| == |FormerHolders(s, target, c)|
  }

  /** ClaimSpecialRole as a whole. */
  ghost predicate RoleClaimed(s: State, ident: string, role: Role, circle: Option<string>, connected: set<PeerId>,
                              tolerance: Time, now: Time, s': State, out: ClaimOutcome)
  {
    if role != RoleOrchestrator then s' == s && out == BadRole
    else exists r ::
      && Resolves(s.peers, connected, ident, circle, r)
      && (r.NotFound? ==> s' == s && out == UnknownPeer)
      && (r.Ambiguous? ==> s' == s && out == AmbiguousPeer)
      && (r.Found? ==> r.id in s.peers && ClaimDecided(s, r.id, circle, connected, tolerance, now, s', out))
  }

  /** Nobody but `target` is orchestrator of `circle`, live or durable. */
  ghost predicate SoleOrchestrator(s: State, target: PeerId, circle: string) {
    && (forall id :: id in s.peers && id != target && s.peers[id].peer.circle == circle
                     ==> s.peers[id].peer.role != RoleOrchestrator)
    && (forall id :: id in s.mappings && id != target && s.mappings[id].circle == circle
                     ==> s.mappings[id].role != RoleOrchestrator)
  }

  lemma ClaimKeepsInv(s: State, target: PeerId, circle: string, now: Time)
    requires Inv(s) && target in s.peers
    ensures Inv(AfterClaim(s, target, circle, now))
  {
  }

  /** A successful claim, about the circle given or else the target's own, makes the target sole orchestrator there;
      it is sole in its own circle exactly when the claim was about that, or nobody else held the role there: an explicit
      foreign circle cleans up the wrong place. */
  lemma ClaimIsExclusiveExactlyWhen(s: State, target: PeerId, circle: Option<string>, connected: set<PeerId>,
                                    tolerance: Time, now: Time, s': State, out: ClaimOutcome)
    requires Inv(s) && target in s.peers
    requires ClaimDecided(s, target, circle, connected, tolerance, now, s', out)
    requires out.Claimed?
    ensures s'.peers.Keys == s.peers.Keys && s'.mappings.Keys == s.mappings.Keys
    ensures out.target == target && (out.alreadyHeld <==> s.peers[target].peer.role == RoleOrchestrator)
    ensures s'.peers[target].peer.role == RoleOrchestrator && s'.mappings[target].role == RoleOrchestrator
    ensures s'.peers[target].peer.lastSeen == Some(now)
    ensures
      var home := s.peers[target].peer.circle;
      var about := if circle.Some? && circle.value != "" then circle.value else home;
      && SoleOrchestrator(s', target, about)
      && (SoleOrchestrator(s', target, home) <==>
            about == home ||
            forall id :: id in s.mappings && id != target && s.mappings[id].circle == home ==> s.mappings[id].role != RoleOrchestrator)
  {
    hide Entrenched, Blockers, Backed, FormerHolders, SoleOrchestrator;
    var home := s.peers[target].peer.circle;
    var c := ClaimCircle(s.peers[target].peer, circle);
    TargetIsNoFormerHolder(s, target, home);
    ClaimKeepsInv(s, target, c, now);
    SoleMeansNoHolders(s', target, c);
    SoleMeansNoHolders(s', target, home);
    HoldersAfterClaim(s, target, c, c, now);
    HoldersAfterClaim(s, target, c, home, now);
    NoHolders(s, target, home);
  }

  lemma NoHolders(s: State, target: PeerId, circle: string)
    ensures FormerHolders(s, target, circle) == {} <==>
              forall id :: id in s.mappings && id != target && s.mappings[id].circle == circle ==> s.mappings[id].role != RoleOrchestrator
  {
    forall id | id in s.mappings && id != target && s.mappings[id].circle == circle
      ensures id in FormerHolders(s, target, circle) <==> s.mappings[id].role == RoleOrchestrator
    {
    }
  }

  /** As rows agree with records, nobody else holds the role live if nobody else holds it durably. */
  lemma SoleMeansNoHolders(s: State, target: PeerId, circle: string)
    requires Inv(s)
    ensures SoleOrchestrator(s, target, circle) <==> FormerHolders(s, target, circle) == {}
  {
    if FormerHolders(s, target, circle) != {} {
      var id :| id in FormerHolders(s, target, circle);
      assert id in s.mappings && s.mappings[id].role == RoleOrchestrator;
    } else {
      forall id | id in s.mappings && id != target && s.mappings[id].circle == circle
        ensures s.mappings[id].role != RoleOrchestrator
      {
        assert id !in FormerHolders(s, target, circle);
      }
      forall id | id in s.peers && id != target && s.peers[id].peer.circle == circle
        ensures s.peers[id].peer.role != RoleOrchestrator
      {
        assert Backed(id, s.peers[id], s.mappings);
      }
    }
  }

  /** The claim empties its own circle of other holders and leaves every other circle's holders in place. */
  lemma HoldersAfterClaim(s: State, target: PeerId, circle: string, other: string, now: Time)
    requires target in s.peers
    ensures FormerHolders(AfterClaim(s, target, circle, now), target, other) ==
              if other == circle then {} else FormerHolders(s, target, other)
  {
  }

  /** A claim is turned down exactly when another Online or Busy orchestrator of the circle it is about was seen within
      the tolerance or is connected; then nothing has changed, and the one named is such a peer that no other such peer
      was seen after. */
  lemma ClaimRefusedExactlyWhen(s: State, target: PeerId, circle: Option<string>, connected: set<PeerId>,
                                tolerance: Time, now: Time, s': State, out: ClaimOutcome)
    requires Inv(s) && target in s.peers
    requires ClaimDecided(s, target, circle, connected, tolerance, now, s', out)
    ensures
      var about := if circle.Some? && circle.value != "" then circle.value else s.peers[target].peer.circle;
      var blockers := set id | id in s.peers && id != target && s.peers[id].state in {Online, Busy}
                               && s.peers[id].peer.circle == about && s.peers[id].peer.role == RoleOrchestrator
                               && ((s.peers[id].peer.lastSeen.Some? && now - s.peers[id].peer.lastSeen.value <= tolerance)
                                   || id in connected);
      && (!out.Claimed? <==> blockers != {})
      && (!out.Claimed? ==>
            && s' == s && out.Conflict? && out.holder in blockers
            && forall o :: o in blockers && s.peers[o].peer.lastSeen.Some? ==>
                 s.peers[out.holder].peer.lastSeen.Some?
                 && s.peers[o].peer.lastSeen.value <= s.peers[out.holder].peer.lastSeen.value)
  {
    var about := ClaimCircle(s.peers[target].peer, circle);
    forall id | id in s.peers
      ensures s.peers[id].peer.id == id && (LiveStatus(s.peers[id].peer) <==> s.peers[id].state in {Online, Busy})
    {
      assert Backed(id, s.peers[id], s.mappings);
    }
    assert Blockers(s, target, about, connected, tolerance, now) ==
      set id | id in s.peers && id != target && s.peers[id].state in {Online, Busy}
               && s.peers[id].peer.circle == about && s.peers[id].peer.role == RoleOrchestrator
               && ((s.peers[id].peer.lastSeen.Some? && now - s.peers[id].peer.lastSeen.value <= tolerance) || id in connected);
  }

  /** The report lists exactly the other former holders, each once, and every other role is untouched. */
  lemma ClaimReportsAndSpares(s: State, target: PeerId, circle: Option<string>, connected: set<PeerId>,
                              tolerance: Time, now: Time, s': State, out: ClaimOutcome, id: PeerId)
    requires Inv(s) && target in s.peers
    requires ClaimDecided(s, target, circle, connected, tolerance, now, s', out)
    requires out.Claimed? && id in s.mappings
    ensures
      var about := if circle.Some? && circle.value != "" then circle.value else s.peers[target].peer.circle;
      multiset(out.previous)[id] ==
        if id != target && s.mappings[id].circle == about && s.mappings[id].role == RoleOrchestrator then 1 else 0
    ensures id != target && id !in out.previous ==> s'.mappings[id] == s.mappings[id]
    ensures id != target && id in s.peers && id !in out.previous ==> s'.peers[id] == s.peers[id]
    ensures id in out.previous ==> s'.mappings[id] == s.mappings[id].(role := RoleAgent, updatedAt := now)
    ensures id in out.previous && id in s.peers ==> s'.peers[id] == Record(s.peers[id].peer.(role := RoleAgent), s.peers[id].state)
    ensures target in s.mappings && s'.mappings[target] == s.mappings[target].(role := RoleOrchestrator, updatedAt := now)
    ensures s'.peers[target] == Record(s.peers[target].peer.(role := RoleOrchestrator, lastSeen := Some(now)), s.peers[target].state)
  {
    var c := ClaimCircle(s.peers[target].peer, circle);
    var holders := Elements(out.previous);
    OnceEach(out.previous);
    TargetIsNoFormerHolder(s, target, c);
    if id in s.peers {
      AgreeOnHolding(s, target, c, id);
    }
    assert id in FormerHolders(s, target, c) <==> id in holders;
  }

  // ---------------------------------------------------------------------------
  // Orchestrator lookup
  // ---------------------------------------------------------------------------

  /** `r` is an answer GetOrchestrator may give: a most recently seen entrenched orchestrator of the circle. */
  ghost predicate OrchestratorFound(s: State, circle: string, connected: set<PeerId>, tolerance: Time, now: Time,
                                    r: Option<PeerId>)
  {
    var holders := set id | id in s.peers && s.peers[id].peer.circle == circle &&
                            Entrenched(s.peers[id].peer, connected, tolerance, now);
    if r.None? then holders == {}
    else r.value in holders && forall o :: o in holders ==> !SeenAfter(s.peers[o].peer, s.peers[r.value].peer)
  }

  /** Among live records, nobody but `target` is orchestrator of `circle`. */
  ghost predicate AloneInRole(s: State, target: PeerId, circle: string) {
    forall id :: id in s.peers && id != target && s.peers[id].peer.circle == circle ==> s.peers[id].peer.role != RoleOrchestrator
  }

  /** A lookup finds nobody exactly when the circle has no Online or Busy orchestrator that was seen within the tolerance
      or is connected; else it finds one of them that no other was seen after. */
  lemma LookupIsLatest(s: State, circle: string, connected: set<PeerId>, tolerance: Time, now: Time, r: Option<PeerId>)
    requires Inv(s) && OrchestratorFound(s, circle, connected, tolerance, now, r)
    ensures
      var holders := set id | id in s.peers && s.peers[id].peer.circle == circle && s.peers[id].state in {Online, Busy}
                              && s.peers[id].peer.role == RoleOrchestrator
                              && ((s.peers[id].peer.lastSeen.Some? && now - s.peers[id].peer.lastSeen.value <= tolerance)
                                  || id in connected);
      && (r == None <==> holders == {})
      && (r.Some? ==> r.value in holders && forall o :: o in holders && s.peers[o].peer.lastSeen.Some? ==>
            s.peers[r.value].peer.lastSeen.Some? && s.peers[o].peer.lastSeen.value <= s.peers[r.value].peer.lastSeen.value)
  {
    forall id | id in s.peers
      ensures s.peers[id].peer.id == id && (LiveStatus(s.peers[id].peer) <==> s.peers[id].state in {Online, Busy})
    {
      assert Backed(id, s.peers[id], s.mappings);
    }
    assert (set id | id in s.peers && s.peers[id].peer.circle == circle && Entrenched(s.peers[id].peer, connected, tolerance, now)) ==
      set id | id in s.peers && s.peers[id].peer.circle == circle && s.peers[id].state in {Online, Busy}
               && s.peers[id].peer.role == RoleOrchestrator
               && ((s.peers[id].peer.lastSeen.Some? && now - s.peers[id].peer.lastSeen.value <= tolerance) || id in connected);
  }

  /** While the target is live and alone in the role, every lookup finds it as long as it is fresh or connected. */
  lemma LookupFindsTheOne(s: State, target: PeerId, connected: set<PeerId>, tolerance: Time, now: Time, r: Option<PeerId>)
    requires Inv(s) && target in s.peers && s.peers[target].state in {Online, Busy}
    requires s.peers[target].peer.role == RoleOrchestrator && AloneInRole(s, target, s.peers[target].peer.circle)
    requires (s.peers[target].peer.lastSeen.Some? && now - s.peers[target].peer.lastSeen.value <= tolerance) || target in connected
    requires OrchestratorFound(s, s.peers[target].peer.circle, connected, tolerance, now, r)
    ensures r == Some(target)
  {
    hide OrchestratorFound, Inv;
    var home := s.peers[target].peer.circle;
    LookupIsLatest(s, home, connected, tolerance, now, r);
    var holders := set id | id in s.peers && s.peers[id].peer.circle == home && s.peers[id].state in {Online, Busy}
                            && s.peers[id].peer.role == RoleOrchestrator
                            && ((s.peers[id].peer.lastSeen.Some? && now - s.peers[id].peer.lastSeen.value <= tolerance)
                                || id in connected);
    assert target in holders;
  }

  /** After a claim about the target's circle, lookups within the tolerance find the target while it is live. */
  lemma LookupFindsClaimant(s: State, target: PeerId, circle: Option<string>, connected: set<PeerId>,
                            tolerance: Time, now: Time, s': State, out: ClaimOutcome,
                            connected': set<PeerId>, later: Time, r: Option<PeerId>)
    requires Inv(s) && target in s.peers
    requires ClaimDecided(s, target, circle, connected, tolerance, now, s', out) && out.Claimed?
    requires circle == None || circle == Some("") || circle == Some(s.peers[target].peer.circle)
    requires s.peers[target].state in {Online, Busy} && now <= later <= now + tolerance
    requires OrchestratorFound(s', s.peers[target].peer.circle, connected', tolerance, later, r)
    ensures r == Some(target)
  {
    ClaimIsExclusiveExactlyWhen(s, target, circle, connected, tolerance, now, s', out);
    ClaimStandsInPlace(s, target, circle, connected, tolerance, now, s', out);
    hide OrchestratorFound, ClaimDecided, Inv;
    LookupFindsTheOne(s', target, connected', tolerance, later, r);
  }

  lemma ClaimStandsInPlace(s: State, target: PeerId, circle: Option<string>, connected: set<PeerId>,
                           tolerance: Time, now: Time, s': State, out: ClaimOutcome)
    requires Inv(s) && target in s.peers
    requires ClaimDecided(s, target, circle, connected, tolerance, now, s', out) && out.Claimed?
    ensures Inv(s') && target in s'.peers && s'.peers[target].peer.circle == s.peers[target].peer.circle
    ensures s'.peers[target].state == s.peers[target].state
  {
    ClaimKeepsInv(s, target, ClaimCircle(s.peers[target].peer, circle), now);
  }
}
