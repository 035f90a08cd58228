/** Runs from a hydrated start that reach the failing side of the exact conditions proved elsewhere. */
module Witnesses {
  import opened Fsm
  import opened Peers
  import opened Naming
  import opened RegistrySpec
  import opened RoleClaims
  import opened RegistrySteps
  import opened RegistrationLaws
  import opened TombstoneLaws
  import opened Runs
  import Flush
  import Redelivery

  const EMPTY: State := State(map[], map[], map[], false, 0, map[])

  function Request(name: string, role: Role, claimed: Option<PeerId>): Params {
    Params("home", "codex", Some(name), "", None, None, None, None, "host", role, claimed, map[], None, None, None, false)
  }

  /** No probe finds anything. */
  function Quiet(freshId: PeerId): Env {
    Env(false, {}, {}, {}, None, None, freshId)
  }

  /** A newcomer under a name nobody bears, without a claim, is minted. */
  lemma Newcomer(s: State, p: Params, id: PeerId, name: string, pane: Option<string>, now: Time)
    requires id != "" && name != "" && MintIsFresh(s, Quiet(id))
    requires p.preferred == Some(name) && p.claimed == None
    requires GatesAdmit(s, p, Quiet(id), now) && PaneSettled(s, p, Quiet(id), now, pane)
    requires forall o :: o in s.peers ==> s.peers[o].peer.name != name
    requires forall o :: o in s.mappings ==> s.mappings[o].name != name
    ensures Step(s, Allocate(p, Quiet(id), now), Created(s, id, name, p, pane, now))
  {
    hide Created, RestoredRow, PaneSettled, StickyHolders, Hijack, SameWorkspace;
    var env := Quiet(id);
    var s', r := Created(s, id, name, p, pane, now), Registered(id, RestoredRow(s, id, name, p, now).name);
    FreeNameIsChosen(s.peers, Seed(p), p.circle, RuntimeSession(p.metadata), name);
    assert AdoptableRows(s, p, name) == {} && OfflineTakeovers(s, p, name) == {};
    assert IdChosen(s, p, env, name, id);
    assert CreatedAnswer(s, p, env, now, id, name, pane, s', r);
    assert AllocatedAs(s, p, env, false, now, name, id, s', r);
    UnguardedAnswer(s, p, env, now, name, id, s', r);
  }

  /** A request that names no pane passes the gates and gets none. */
  lemma PanelessPasses(s: State, p: Params, env: Env, now: Time)
    requires p.pane == None
    ensures GatesAdmit(s, p, env, now) && PaneSettled(s, p, env, now, None)
  {
  }

  lemma FreeNameIsChosen(peers: map<PeerId, Record>, seed: NameSeed, circle: string, session: string, name: string)
    requires seed.preferred == name && name != ""
    requires forall o :: o in peers ==> peers[o].peer.name != name
    ensures NameChosen(peers, seed, circle, session, name)
  {
    assert Candidate(seed, 1) == name;
    assert Accepted(peers, seed, circle, session, 1);
  }

  /** After a first registration: one record and its row. */
  function One(role: Role): State {
    Created(EMPTY, "a", "alpha", Request("alpha", role, None), None, 0)
  }

  lemma OneIsReached(role: Role)
    ensures Init(EMPTY)
    ensures Step(EMPTY, Allocate(Request("alpha", role, None), Quiet("a"), 0), One(role))
    ensures One(role).peers.Keys == One(role).mappings.Keys == {"a"} && One(role).retired == map[]
    ensures One(role).peers["a"].state == Online && One(role).peers["a"].peer.name == "alpha"
    ensures One(role).peers["a"].peer.backend == "codex" && One(role).peers["a"].peer.path == ""
    ensures One(role).peers["a"].peer.role == role && One(role).peers["a"].peer.circle == "home"
    ensures One(role).mappings["a"].name == "alpha" && One(role).mappings["a"].circle == "home"
    ensures One(role).mappings["a"].role == role
    ensures Inv(One(role)) && One(role).dirty
  {
    var p := Request("alpha", role, None);
    PanelessPasses(EMPTY, p, Quiet("a"), 0);
    Newcomer(EMPTY, p, "a", "alpha", None, 0);
  }

  lemma RunStarts(s: State)
    requires Init(s)
    ensures Run([s], [])
  {
  }

  lemma RunGoesOn(states: seq<State>, ops: seq<Op>, op: Op, s': State)
    requires states != [] && Run(states, ops) && Step(states[|states| - 1], op, s')
    ensures Run(states + [s'], ops + [op])
    ensures |states| == |ops| + 1
  {
    hide Step, Init;
  }

  /** A terminal mark, the pruning of its tombstone, then a claim on the id: answered, and the record still Retired. */
  lemma ReclaimedYetRetired() returns (states: seq<State>, ops: seq<Op>)
    ensures Run(states, ops) && |ops| == 4 && ops[3].Allocate? && ops[3].p.claimed == Some("a")
    ensures Allocated(states[3], ops[3].p, ops[3].env, ops[3].now, states[4], Registered("a", "alpha"))
    ensures "a" in states[4].peers && states[4].peers["a"].state == Retired && "a" !in states[4].retired
  {
    hide One, Step, Init, Inv, MarkedOffline, Pruned, Reconnected, Allocated, Run;
    OneIsReached(RoleAgent);
    var s1 := One(RoleAgent);
    var s2 := MarkedOffline(s1, "a", true, false, 1);
    var s3 := Pruned(s2, 1);
    var claim, env := Request("beta", RoleAgent, Some("a")), Quiet("b");
    RetireAndPrune(s1);
    ClaimIsAnswered(s3, claim, env, 2);
    var s4 := Reconnected(s3, "a", claim, false, 2);
    RunStarts(EMPTY);
    RunGoesOn([EMPTY], [], Allocate(Request("alpha", RoleAgent, None), Quiet("a"), 0), s1);
    states, ops := [EMPTY] + [s1], [] + [Allocate(Request("alpha", RoleAgent, None), Quiet("a"), 0)];
    RunGoesOn(states, ops, MarkOffline("a", true, false, 1), s2);
    states, ops := states + [s2], ops + [MarkOffline("a", true, false, 1)];
    RunGoesOn(states, ops, PruneRetired(1), s3);
    states, ops := states + [s3], ops + [PruneRetired(1)];
    RunGoesOn(states, ops, Allocate(claim, env, 2), s4);
    states, ops := states + [s4], ops + [Allocate(claim, env, 2)];
  }

  lemma RetireAndPrune(s1: State)
    requires s1.peers.Keys == s1.mappings.Keys == {"a"} && s1.retired == map[] && s1.peers["a"].state == Online
    ensures
      var s2 := MarkedOffline(s1, "a", true, false, 1);
      var s3 := Pruned(s2, 1);
      && Step(s1, MarkOffline("a", true, false, 1), s2) && Step(s2, PruneRetired(1), s3)
      && s3.retired == map[] && s3.mappings == s1.mappings && s3.peers.Keys == {"a"}
      && s3.peers["a"].state == Retired
      && s3.peers["a"].peer.name == s1.peers["a"].peer.name && s3.peers["a"].peer.backend == s1.peers["a"].peer.backend
      && s3.peers["a"].peer.path == s1.peers["a"].peer.path
  {
  }

  /** Without a tombstone for the claim the guard does nothing. */
  lemma UnguardedAnswer(s: State, p: Params, env: Env, now: Time, name: string, id: PeerId, s': State, r: Registration)
    requires MintIsFresh(s, env) && !ClaimsRetired(s, p)
    requires AllocatedAs(s, p, env, false, now, name, id, s', r)
    ensures Allocated(s, p, env, now, s', r) && Step(s, Allocate(p, env, now), s')
  {
    hide AllocatedAs, MintIsFresh;
    assert AfterGuard(s, p, env) == s && !GuardAccepts(s, p, env);
    assert Allocated(s, p, env, now, s', r);
  }

  lemma ClaimLeadsHome(s: State, p: Params, env: Env, name: string)
    requires "a" in s.peers && s.peers["a"].peer.backend == "codex" && s.peers["a"].peer.path == ""
    requires p == Request(name, RoleAgent, Some("a"))
    ensures IdChosen(s, p, env, name, "a")
  {
  }

  lemma ReconnectedStaysRetired(s: State, p: Params, now: Time)
    requires "a" in s.peers && s.peers["a"].state == Retired && p.pane == None
    ensures
      var s' := Reconnected(s, "a", p, false, now);
      "a" in s'.peers && s'.peers["a"].state == Retired && s'.retired == s.retired
  {
  }

  lemma ClaimIsAnswered(s: State, p: Params, env: Env, now: Time)
    requires s.peers.Keys == s.mappings.Keys == {"a"} && s.retired == map[] && s.peers["a"].state == Retired
    requires s.peers["a"].peer.name == "alpha" && s.peers["a"].peer.backend == "codex" && s.peers["a"].peer.path == ""
    requires p == Request("beta", RoleAgent, Some("a")) && env == Quiet("b")
    ensures
      var s' := Reconnected(s, "a", p, false, now);
      && Step(s, Allocate(p, env, now), s') && Allocated(s, p, env, now, s', Registered("a", "alpha"))
      && "a" in s'.peers && s'.peers["a"].state == Retired && s'.retired == map[]
  {
    hide NameChosen, IdChosen, Reconnected, Allocated, Step;
    FreeNameIsChosen(s.peers, Seed(p), p.circle, RuntimeSession(p.metadata), "beta");
    ClaimLeadsHome(s, p, env, "beta");
    ReconnectedStaysRetired(s, p, now);
    UnguardedAnswer(s, p, env, now, "beta", "a", Reconnected(s, "a", p, false, now), Registered("a", "alpha"));
  }

  /** An ordinary terminal mark, then a close: the tombstone is still soft. */
  lemma ClosedYetSoft() returns (states: seq<State>, ops: seq<Op>)
    ensures Run(states, ops) && |ops| == 3 && ops[2].MarkOffline? && ops[2].terminal && ops[2].hard && ops[2].id == "a"
    ensures "a" in states[3].retired && !states[3].retired["a"].hard
  {
    OneIsReached(RoleAgent);
    var s1 := One(RoleAgent);
    var s2 := MarkedOffline(s1, "a", true, false, 1);
    var s3 := MarkedOffline(s2, "a", true, true, 2);
    hide One;
    states := [EMPTY, s1, s2, s3];
    ops := [Allocate(Request("alpha", RoleAgent, None), Quiet("a"), 0), MarkOffline("a", true, false, 1),
            MarkOffline("a", true, true, 2)];
    hide Step;
    assert Step(s1, ops[1], s2) && Step(s2, ops[2], s3) by { MarksAreSteps(s1, s2, s3); }
  }

  lemma MarksAreSteps(s1: State, s2: State, s3: State)
    requires s2 == MarkedOffline(s1, "a", true, false, 1) && s3 == MarkedOffline(s2, "a", true, true, 2)
    ensures Step(s1, MarkOffline("a", true, false, 1), s2) && Step(s2, MarkOffline("a", true, true, 2), s3)
  {
  }

  /** Closing an id without a record, then an ordinary terminal mark for it: the hard tombstone has turned soft. */
  lemma HardYetSoftened() returns (states: seq<State>, ops: seq<Op>)
    ensures Run(states, ops) && |ops| == 2 && HardRetired(states[1], "a")
    ensures "a" in states[2].retired && !states[2].retired["a"].hard
  {
    var s1 := MarkedOffline(EMPTY, "a", true, true, 0);
    var s2 := MarkedOffline(s1, "a", true, false, 1);
    states, ops := [EMPTY, s1, s2], [MarkOffline("a", true, true, 0), MarkOffline("a", true, false, 1)];
  }

  /** The durable row of a closed peer. */
  const ROW: Mapping := Mapping("a", "alpha", "home", "codex", None, RoleAgent, 0, "", None, None)

  /** A closed peer after a restart: its row and its hard tombstone are hydrated, its record is gone. A namesake's
      registration, with no claim and no proof, adopts the row and brings the id to life. */
  lemma HardYetAdopted() returns (states: seq<State>, ops: seq<Op>)
    ensures Run(states, ops) && |ops| == 1 && ops[0].Allocate? && ops[0].p.claimed == None && !ops[0].p.verified
    ensures HardRetired(states[0], "a") && Dormant(states[0], "a")
    ensures HardRetired(states[1], "a") && "a" in states[1].peers && states[1].peers["a"].state == Online
  {
    var s0 := EMPTY.(mappings := map["a" := ROW], retired := map["a" := Retirement(0, true)]);
    var p, env := Request("alpha", RoleAgent, None), Quiet("b");
    var s1, r := Created(s0, "a", "alpha", p, None, 1), Registered("a", RestoredRow(s0, "a", "alpha", p, 1).name);
    PanelessPasses(s0, p, env, 1);
    FreeNameIsChosen(s0.peers, Seed(p), p.circle, RuntimeSession(p.metadata), "alpha");
    FreshEnds(s0, "a", "alpha", p, None, 1);
    hide Created, RestoredRow, NameChosen, PaneSettled, GatesAdmit;
    assert "a" in AdoptableRows(s0, p, "alpha") && OfflineTakeovers(s0, p, "alpha") == {};
    assert CreatedAnswer(s0, p, env, 1, "a", "alpha", None, s1, r);
    assert AllocatedAs(s0, p, env, false, 1, "alpha", "a", s1, r);
    UnguardedAnswer(s0, p, env, 1, "alpha", "a", s1, r);
    RunStarts(s0);
    RunGoesOn([s0], [], Allocate(p, env, 1), s1);
    states, ops := [s0] + [s1], [] + [Allocate(p, env, 1)];
  }

  /** A request of a known runtime session. */
  function SessionRequest(claimed: Option<PeerId>): Params {
    Request("alpha", RoleAgent, claimed).(metadata := map["session_id" := Text("s")], verified := true)
  }

  /** A proof accepted for the soft tombstone of one id brings a closed peer of the same session back to life, whose
      own hard tombstone stands. */
  lemma ProvenForAnother() returns (states: seq<State>, ops: seq<Op>)
    ensures Run(states, ops) && |ops| == 3 && ops[2].Allocate? && ops[2].p.claimed == Some("c")
    ensures HardRetired(states[2], "a") && "a" in states[2].peers && states[2].peers["a"].state == Retired
    ensures HardRetired(states[3], "a") && "a" in states[3].peers && states[3].peers["a"].state == Online
  {
    hide Step, Run, Created, MarkedOffline, Reconnected;
    var s0 := EMPTY.(retired := map["c" := Retirement(0, false)]);
    var first, again := SessionRequest(None), SessionRequest(Some("c"));
    var s1 := Created(s0, "a", "alpha", first, None, 0);
    SessionArrives(s0, s1);
    var s2 := MarkedOffline(s1, "a", true, true, 1);
    ClosedForGood(s1, s2);
    var s3 := Reconnected(Unretire(s2, "c"), "a", again, true, 2);
    ProofReachesOther(s2, s3);
    RunStarts(s0);
    RunGoesOn([s0], [], Allocate(first, Quiet("a"), 0), s1);
    states, ops := [s0] + [s1], [] + [Allocate(first, Quiet("a"), 0)];
    RunGoesOn(states, ops, MarkOffline("a", true, true, 1), s2);
    states, ops := states + [s2], ops + [MarkOffline("a", true, true, 1)];
    RunGoesOn(states, ops, Allocate(again, Quiet("b"), 2), s3);
    states, ops := states + [s3], ops + [Allocate(again, Quiet("b"), 2)];
  }

  /** The only record, its row and its session. */
  predicate OneOfSession(s: State) {
    && s.peers.Keys == s.mappings.Keys == {"a"}
    && s.peers["a"].peer.name == s.mappings["a"].name == "alpha"
    && s.peers["a"].peer.circle == s.mappings["a"].circle == "home"
    && s.mappings["a"].backend == "codex" && s.mappings["a"].path == None
    && s.peers["a"].peer.metadata == map["session_id" := Text("s")]
  }

  lemma SessionArrives(s0: State, s1: State)
    requires s0 == EMPTY.(retired := map["c" := Retirement(0, false)])
    requires s1 == Created(s0, "a", "alpha", SessionRequest(None), None, 0)
    ensures Step(s0, Allocate(SessionRequest(None), Quiet("a"), 0), s1)
    ensures OneOfSession(s1) && s1.peers["a"].state == Online && s1.retired == map["c" := Retirement(0, false)]
  {
    var p := SessionRequest(None);
    PanelessPasses(s0, p, Quiet("a"), 0);
    hide Step, PaneSettled, GatesAdmit;
    Newcomer(s0, p, "a", "alpha", None, 0);
  }

  lemma ClosedForGood(s1: State, s2: State)
    requires OneOfSession(s1) && s1.peers["a"].state == Online && s1.retired == map["c" := Retirement(0, false)]
    requires s2 == MarkedOffline(s1, "a", true, true, 1)
    ensures Step(s1, MarkOffline("a", true, true, 1), s2)
    ensures OneOfSession(s2) && s2.peers["a"].state == Retired
    ensures s2.retired == map["c" := Retirement(0, false), "a" := Retirement(1, true)]
  {
  }

  lemma ProofReachesOther(s2: State, s3: State)
    requires OneOfSession(s2) && s2.peers["a"].state == Retired
    requires s2.retired == map["c" := Retirement(0, false), "a" := Retirement(1, true)]
    requires s3 == Reconnected(Unretire(s2, "c"), "a", SessionRequest(Some("c")), true, 2)
    ensures Step(s2, Allocate(SessionRequest(Some("c")), Quiet("b"), 2), s3)
    ensures "a" in s3.peers && s3.peers["a"].state == Online && HardRetired(s3, "a")
  {
    var p, env, g := SessionRequest(Some("c")), Quiet("b"), Unretire(s2, "c");
    hide NameChosen, Reconnected, IdChosen, MintIsFresh;
    assert AfterGuard(s2, p, env) == g && GuardAccepts(s2, p, env);
    SessionNameIsChosen(g, p);
    ReconnectedComesBack(g, p, 2);
    NameLeadsToRow(g, p, env);
    BIsFresh(s2);
    assert AllocatedAs(g, p, env, true, 2, "alpha", "a", s3, Registered("a", "alpha"));
    assert Allocated(s2, p, env, 2, s3, Registered("a", "alpha"));
  }

  lemma NameLeadsToRow(s: State, p: Params, env: Env)
    requires OneOfSession(s) && s.peers["a"].state == Retired && p == SessionRequest(Some("c"))
    ensures IdChosen(s, p, env, "alpha", "a")
  {
    assert "a" in AdoptableRows(s, p, "alpha") && OfflineTakeovers(s, p, "alpha") == {};
  }

  lemma BIsFresh(s: State)
    requires "b" !in s.peers && "b" !in s.mappings && "b" !in s.retired
    ensures MintIsFresh(s, Quiet("b"))
  {
  }

  lemma ReconnectedComesBack(s: State, p: Params, now: Time)
    requires "a" in s.peers && s.peers["a"].state == Retired && p.pane == None
    ensures
      var s' := Reconnected(s, "a", p, true, now);
      "a" in s'.peers && s'.peers["a"].state == Online && s'.retired == s.retired
  {
  }

  lemma SessionNameIsChosen(s: State, p: Params)
    requires OneOfSession(s) && p == SessionRequest(Some("c"))
    ensures NameChosen(s.peers, Seed(p), p.circle, RuntimeSession(p.metadata), "alpha")
  {
    assert RuntimeSession(p.metadata) == "s";
    assert Candidate(Seed(p), 1) == "alpha";
    assert Blocks(s.peers["a"], "alpha", "home") && Passable(s.peers["a"], "s");
    assert Accepted(s.peers, Seed(p), p.circle, "s", 1);
  }

  /** A peer that went Offline keeps its pane; a newcomer takes the same pane; the first reconnects without naming one. */
  lemma TwoOnOnePane() returns (states: seq<State>, ops: seq<Op>)
    ensures Run(states, ops) && |ops| == 4 && Share(states[4], "a", "b") && !Share(states[3], "a", "b")
    ensures ops[3].Allocate? && ops[3].p.claimed == Some("a") && ops[3].p.pane == None
  {
    hide Step, Run, Created, MarkedOffline, Reconnected, Share;
    var first, second := Request("alpha", RoleAgent, None).(pane := Some("%1")), Request("beta", RoleAgent, None).(pane := Some("%1"));
    var claim := Request("gamma", RoleAgent, Some("a"));
    var s1 := Created(EMPTY, "a", "alpha", first, Some("%1"), 0);
    FirstOnPane(s1);
    var s2 := MarkedOffline(s1, "a", false, false, 1);
    LeavesKeepingPane(s1, s2);
    var s3 := Created(s2, "b", "beta", second, Some("%1"), 2);
    SecondOnPane(s2, s3);
    var s4 := Reconnected(s3, "a", claim, false, 3);
    FirstComesBack(s3, s4);
    RunStarts(EMPTY);
    RunGoesOn([EMPTY], [], Allocate(first, Quiet("a"), 0), s1);
    states, ops := [EMPTY] + [s1], [] + [Allocate(first, Quiet("a"), 0)];
    RunGoesOn(states, ops, MarkOffline("a", false, false, 1), s2);
    states, ops := states + [s2], ops + [MarkOffline("a", false, false, 1)];
    RunGoesOn(states, ops, Allocate(second, Quiet("b"), 2), s3);
    states, ops := states + [s3], ops + [Allocate(second, Quiet("b"), 2)];
    RunGoesOn(states, ops, Allocate(claim, Quiet("c"), 3), s4);
    states, ops := states + [s4], ops + [Allocate(claim, Quiet("c"), 3)];
  }

  /** `a` under its own name on the pane, in this state. */
  predicate HasFirst(s: State, state: LifecycleState) {
    && "a" in s.peers && s.peers["a"].state == state && s.peers["a"].peer.pane == Some("%1")
    && s.peers["a"].peer.name == "alpha" && s.peers["a"].peer.backend == "codex" && s.peers["a"].peer.path == ""
    && s.peers["a"].peer.role == RoleAgent && s.peers["a"].peer.agentPid == None
    && "a" in s.mappings && s.mappings["a"].name == "alpha"
    && s.retired == map[]
  }

  lemma FirstOnPane(s1: State)
    requires s1 == Created(EMPTY, "a", "alpha", Request("alpha", RoleAgent, None).(pane := Some("%1")), Some("%1"), 0)
    ensures Step(EMPTY, Allocate(Request("alpha", RoleAgent, None).(pane := Some("%1")), Quiet("a"), 0), s1)
    ensures HasFirst(s1, Online) && s1.peers.Keys == s1.mappings.Keys == {"a"}
  {
    var p := Request("alpha", RoleAgent, None).(pane := Some("%1"));
    NobodyOnPane(EMPTY, p, Quiet("a"), 0);
    hide Step, PaneSettled, GatesAdmit;
    Newcomer(EMPTY, p, "a", "alpha", Some("%1"), 0);
  }

  lemma NobodyOnPane(s: State, p: Params, env: Env, now: Time)
    requires p.pane == Some("%1") && p.parentPid == None && env.aliveAtHolder == {}
    requires forall o :: o in s.peers ==> s.peers[o].peer.role == RoleAgent
    ensures GatesAdmit(s, p, env, now) && PaneSettled(s, p, env, now, Some("%1"))
  {
    assert StickyHolders(s, "%1", now) == {} && LiveHolders(s, "%1", env, now) == {};
  }

  lemma LeavesKeepingPane(s1: State, s2: State)
    requires HasFirst(s1, Online) && s1.peers.Keys == s1.mappings.Keys == {"a"}
    requires s2 == MarkedOffline(s1, "a", false, false, 1)
    ensures Step(s1, MarkOffline("a", false, false, 1), s2)
    ensures HasFirst(s2, Offline) && s2.peers.Keys == s2.mappings.Keys == {"a"}
  {
  }

  lemma SecondOnPane(s2: State, s3: State)
    requires HasFirst(s2, Offline) && s2.peers.Keys == s2.mappings.Keys == {"a"}
    requires s3 == Created(s2, "b", "beta", Request("beta", RoleAgent, None).(pane := Some("%1")), Some("%1"), 2)
    ensures Step(s2, Allocate(Request("beta", RoleAgent, None).(pane := Some("%1")), Quiet("b"), 2), s3)
    ensures HasFirst(s3, Offline) && s3.peers.Keys == s3.mappings.Keys == {"a", "b"}
    ensures s3.peers["b"].state == Online && s3.peers["b"].peer.pane == Some("%1") && s3.peers["b"].peer.name == "beta"
  {
    var p := Request("beta", RoleAgent, None).(pane := Some("%1"));
    NobodyOnPane(s2, p, Quiet("b"), 2);
    hide Step, PaneSettled, GatesAdmit;
    Newcomer(s2, p, "b", "beta", Some("%1"), 2);
  }

  lemma ReconnectedOnPane(s: State, p: Params)
    requires HasFirst(s, Offline) && p.pane == None && "b" in s.peers
    ensures
      var s' := Reconnected(s, "a", p, false, 3);
      && "a" in s'.peers && s'.peers["a"].state == Online && s'.peers["a"].peer.pane == Some("%1")
      && "b" in s'.peers && s'.peers["b"] == s.peers["b"]
  {
  }

  lemma FirstComesBack(s3: State, s4: State)
    requires HasFirst(s3, Offline) && s3.peers.Keys == s3.mappings.Keys == {"a", "b"}
    requires s3.peers["b"].state == Online && s3.peers["b"].peer.pane == Some("%1") && s3.peers["b"].peer.name == "beta"
    requires s4 == Reconnected(s3, "a", Request("gamma", RoleAgent, Some("a")), false, 3)
    ensures Step(s3, Allocate(Request("gamma", RoleAgent, Some("a")), Quiet("c"), 3), s4)
    ensures Share(s4, "a", "b") && !Share(s3, "a", "b")
  {
    var p, env := Request("gamma", RoleAgent, Some("a")), Quiet("c");
    hide NameChosen, IdChosen, Step, Reconnected, Allocated;
    FreeNameIsChosen(s3.peers, Seed(p), p.circle, RuntimeSession(p.metadata), "gamma");
    ClaimLeadsHome(s3, p, env, "gamma");
    ReconnectedOnPane(s3, p);
    assert AllocatedAs(s3, p, env, false, 3, "gamma", "a", s4, Registered("a", "alpha"));
    UnguardedAnswer(s3, p, env, 3, "gamma", "a", s4, Registered("a", "alpha"));
  }

  /** A claim about a foreign circle succeeds and leaves two orchestrators at home. */
  lemma TwoOrchestratorsAtHome() returns (states: seq<State>, ops: seq<Op>)
    ensures Run(states, ops) && |ops| == 3 && ops[2].ClaimRole? && ops[2].id == "b" && ops[2].about == Some("away")
    ensures "b" in states[2].peers
    ensures ClaimDecided(states[2], "b", Some("away"), {}, 1, 1, states[3], Claimed("b", false, []))
    ensures HoldsRole(states[3], "a", "home") && HoldsRole(states[3], "b", "home")
  {
    hide One, Step, Init, Inv, Created, AfterClaim, ClaimDecided, Run;
    OneIsReached(RoleOrchestrator);
    var s1 := One(RoleOrchestrator);
    var p := Request("beta", RoleAgent, None);
    SecondArrives(s1);
    var s2 := Created(s1, "b", "beta", p, None, 1);
    var s3 := AfterClaim(s2, "b", "away", 1);
    ClaimGoesAway(s2, s3);
    RunStarts(EMPTY);
    RunGoesOn([EMPTY], [], Allocate(Request("alpha", RoleOrchestrator, None), Quiet("a"), 0), s1);
    states, ops := [EMPTY] + [s1], [] + [Allocate(Request("alpha", RoleOrchestrator, None), Quiet("a"), 0)];
    RunGoesOn(states, ops, Allocate(p, Quiet("b"), 1), s2);
    states, ops := states + [s2], ops + [Allocate(p, Quiet("b"), 1)];
    RunGoesOn(states, ops, ClaimRole("b", Some("away"), {}, 1, 1), s3);
    states, ops := states + [s3], ops + [ClaimRole("b", Some("away"), {}, 1, 1)];
  }

  lemma SecondArrives(s1: State)
    requires s1.peers.Keys == s1.mappings.Keys == {"a"} && s1.peers["a"].peer.circle == s1.mappings["a"].circle == "home"
    requires s1.peers["a"].peer.name == s1.mappings["a"].name == "alpha" && s1.retired == map[]
    ensures Step(s1, Allocate(Request("beta", RoleAgent, None), Quiet("b"), 1),
                 Created(s1, "b", "beta", Request("beta", RoleAgent, None), None, 1))
    ensures
      var s2 := Created(s1, "b", "beta", Request("beta", RoleAgent, None), None, 1);
      && s2.peers.Keys == s2.mappings.Keys == {"a", "b"} && s2.peers["a"] == s1.peers["a"]
      && s2.mappings["a"] == s1.mappings["a"]
      && s2.peers["b"].peer.circle == s2.mappings["b"].circle == "home" && s2.peers["b"].peer.role == RoleAgent
  {
    hide Step, PaneSettled, GatesAdmit;
    var p := Request("beta", RoleAgent, None);
    PanelessPasses(s1, p, Quiet("b"), 1);
    Newcomer(s1, p, "b", "beta", None, 1);
  }

  lemma ClaimGoesAway(s: State, s': State)
    requires "b" in s.peers && s' == AfterClaim(s, "b", "away", 1)
    requires forall o :: o in s.peers ==> s.peers[o].peer.circle == "home"
    requires forall o :: o in s.mappings ==> s.mappings[o].circle == "home"
    requires s.peers["b"].peer.role == RoleAgent
    ensures ClaimDecided(s, "b", Some("away"), {}, 1, 1, s', Claimed("b", false, []))
    ensures Step(s, ClaimRole("b", Some("away"), {}, 1, 1), s')
    ensures forall o :: o in s.peers ==> o in s'.peers && s'.peers[o].peer.circle == "home"
    ensures forall o :: o in s.peers && o != "b" ==> s'.peers[o].peer.role == s.peers[o].peer.role
    ensures s'.peers["b"].peer.role == RoleOrchestrator
  {
    assert Blockers(s, "b", "away", {}, 1, 1) == {} && FormerHolders(s, "b", "away") == {};
    assert ClaimDecided(s, "b", Some("away"), {}, 1, 1, s', Claimed("b", false, []));
  }

  /** From the start: a registration, a flush that begins, an unregistration whose row is deleted, and the flush's upsert
      that brings the row back for good. */
  lemma DeletedRowReturns() returns (states: seq<Flush.System>, actions: seq<Flush.Action>)
    ensures Flush.SystemRun(states, actions) && |actions| == 5
    ensures actions[3] == Flush.DeleteRow("a", true) && Flush.OrphansRow(states[4], actions[4], "a")
    ensures Flush.Orphan(states[5], "a")
  {
    hide One, Step, Inv, Flush.Act, Flush.SystemInv, Flush.OrphansRow, Flush.Orphan;
    OneIsReached(RoleAgent);
    var s1 := One(RoleAgent);
    var op := Allocate(Request("alpha", RoleAgent, None), Quiet("a"), 0);
    var start := Flush.System(EMPTY, map[], Flush.Idle, {}, {});
    var x := Flush.System(s1, map[], Flush.Idle, {}, {"a"});
    FirstFlushState(s1, op, start, x);
    var trace, rest := Flush.FlushResurrectsDeletedRow(x, "a");
    states, actions := [start] + trace, [Flush.Operate(op)] + rest;
    forall i | 0 <= i < 5 ensures Flush.Act(states[i], actions[i], states[i + 1]) {
      if i > 0 {
        assert Flush.Act(trace[i - 1], rest[i - 1], trace[i]);
      }
    }
    LandedLate(trace[3], trace[4]);
  }

  lemma FirstFlushState(s1: State, op: Op, start: Flush.System, x: Flush.System)
    requires Inv(s1) && s1.mappings.Keys == {"a"} && s1.dirty && Step(EMPTY, op, s1)
    requires op.Allocate? && op.env.freshId == "a"
    requires start == Flush.System(EMPTY, map[], Flush.Idle, {}, {})
    requires x == Flush.System(s1, map[], Flush.Idle, {}, {"a"})
    ensures Flush.Start(start) && Flush.Act(start, Flush.Operate(op), x) && Flush.SystemInv(x)
  {
    hide Step, Inv;
    assert EMPTY.mappings.Keys - s1.mappings.Keys == {};
  }

  lemma LandedLate(x: Flush.System, y: Flush.System)
    requires Flush.Act(x, Flush.WriteRow("a", true), y) && Flush.Orphan(y, "a")
    ensures Flush.OrphansRow(x, Flush.WriteRow("a", true), "a")
  {
  }

  /** From a tracker with one stash: a worker takes it up and delivers it, and the stash renewed in between is gone. */
  lemma RenewedStashVanishes() returns (states: seq<Redelivery.System>, actions: seq<Redelivery.Action>)
    ensures Redelivery.SystemRun(states, actions) && |actions| == 6
    ensures Redelivery.Pending(states[5].asks, "q", 1)
    ensures "q" in states[6].asks && states[6].asks["q"].pending == None
    ensures forall to :: Redelivery.Sent("q", 1, to) !in states[6].sent
  {
    var ask := Redelivery.Ask("p", None, Some(0), false);
    var x0 := Redelivery.System(map["q" := ask], map[], {}, map[], [], 1);
    var x1 := x0.(workers := map[0 := Redelivery.Worker("p", Redelivery.Scheduled)]);
    var x2 := Redelivery.Claimed(x1, 0);
    var jobs := [Redelivery.Job("q", 0)];
    var x3 := Redelivery.At(x2, 0, Redelivery.Delivering(jobs, None));
    assert Redelivery.OwnStashes(x2.asks, "p") == {"q"};
    assert Redelivery.Act(x0, Redelivery.Schedule(0, "p"), x1);
    assert Redelivery.Act(x1, Redelivery.Claim(0), x2);
    assert Redelivery.Act(x2, Redelivery.SnapshotOwn(0, jobs), x3);
    var trace, rest := Redelivery.RenewedStashIsLost(x3, 0, "q");
    hide Redelivery.Act;
    states, actions := [x0, x1, x2] + trace, [Redelivery.Schedule(0, "p"), Redelivery.Claim(0), Redelivery.SnapshotOwn(0, jobs)] + rest;
    forall i | 0 <= i < 6 ensures Redelivery.Act(states[i], actions[i], states[i + 1]) {
      if i >= 3 {
        assert Redelivery.Act(trace[i - 3], rest[i - 3], trace[i - 2]);
      }
    }
  }
}
