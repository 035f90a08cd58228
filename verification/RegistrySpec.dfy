/** What each critical section of the registry does to its state
    (daemon-go/peer/registry.go, reconcile.go, registry_lifecycle_byname.go, registry_access.go). */
module RegistrySpec {
  import opened Fsm
  import opened Peers
  import opened Naming

  datatype State = State(
    peers: map<PeerId, Record>,
    mappings: map<PeerId, Mapping>,
    retired: map<PeerId, Retirement>,
    dirty: bool,
    version: nat,
    describedAt: map<PeerId, Time>)

  // ---------------------------------------------------------------------------
  // Invariant
  // ---------------------------------------------------------------------------

  /** The durable row tells the same story as the record about its identity. */
  predicate Agree(p: Peer, m: Mapping) {
    && m.name == p.name
    && m.circle == p.circle
    && m.role == p.role
    && m.backend == p.backend
    && m.description == p.description
  }

  /** The wire status is the projection of the lifecycle state. */
  predicate InLockstep(r: Record) {
    ToStatus(r.state) == Reported(r.peer.status)
  }

  /** A record under its own id, in lockstep, with a row that agrees with it. */
  predicate Backed(id: PeerId, r: Record, mappings: map<PeerId, Mapping>) {
    r.peer.id == id && InLockstep(r) && id in mappings && Agree(r.peer, mappings[id])
  }

  ghost predicate Inv(s: State) {
    && "" !in s.peers
    && (forall id :: id in s.mappings ==> s.mappings[id].id == id)
    && (forall id :: id in s.peers ==> Backed(id, s.peers[id], s.mappings))
  }

  /** A registry as NewRegistry leaves it: hydrated rows and tombstones, no live record. */
  ghost predicate Init(s: State) {
    && s.peers == map[]
    && s.describedAt == map[]
    && !s.dirty
    && s.version == 0
    && (forall id :: id in s.mappings ==> s.mappings[id].id == id)
  }

  /** The table hydration builds from the stored rows, in order. */
  function Hydrated(rows: seq<Mapping>): map<PeerId, Mapping> {
    if rows == [] then map[]
    else
      var last := rows[|rows| - 1];
      Hydrated(rows[..|rows| - 1])[last.id := last]
  }

  /** Every row is stored under its own id. */
  lemma {:induction false} HydratedRows(rows: seq<Mapping>)
    ensures forall id :: id in Hydrated(rows) ==>
              Hydrated(rows)[id].id == id && exists i :: 0 <= i < |rows| && rows[i].id == id
  {
    if rows != [] {
      HydratedRows(rows[..|rows| - 1]);
    }
  }

  /** Of several stored rows with one id, the last wins. */
  lemma {:induction false} LastRowWins(rows: seq<Mapping>, i: nat)
    requires i < |rows| && forall j :: i < j < |rows| ==> rows[j].id != rows[i].id
    ensures rows[i].id in Hydrated(rows) && Hydrated(rows)[rows[i].id] == rows[i]
  {
    if i < |rows| - 1 {
      LastRowWins(rows[..|rows| - 1], i);
    }
  }

  // ---------------------------------------------------------------------------
  // Single-record moves
  // ---------------------------------------------------------------------------

  /** Put a record in lifecycle state n: status follows, last-seen is now. */
  function Moved(r: Record, n: LifecycleState, now: Time): Record {
    var w := ToStatus(n);
    Record(r.peer.(status := if w.Reported? then w.status else r.peer.status, lastSeen := Some(now)), n)
  }

  /** Apply an event; an illegal one leaves the record as it is. */
  function Transitioned(r: Record, e: LifecycleEvent, now: Time): Record {
    var t := Apply(r.state, e);
    if t.Next? then Moved(r, t.state, now) else r
  }

  function MarkedDirty(s: State): State {
    s.(dirty := true, version := s.version + 1)
  }

  function Retire(s: State, id: PeerId, hard: bool, now: Time): State {
    s.(retired := s.retired[id := Retirement(now, hard)])
  }

  function Unretire(s: State, id: PeerId): State {
    s.(retired := s.retired - {id})
  }

  /** Replace the row of id, if there is one, and mark the table dirty. */
  function RowUpdated(s: State, id: PeerId, row: Mapping): State {
    if id in s.mappings then MarkedDirty(s.(mappings := s.mappings[id := row])) else s
  }

  function MarkedOffline(s: State, id: PeerId, terminal: bool, hard: bool, now: Time): State {
    if id !in s.peers then
      if terminal then Retire(s, id, hard, now) else s
    else
      var e := if terminal then TerminalOffline else TransportDisconnect;
      if Apply(s.peers[id].state, e).Illegal? then s
      else
        var moved := s.(peers := s.peers[id := Transitioned(s.peers[id], e, now)]);
        if terminal then Retire(moved, id, hard, now) else moved
  }

  /** The lifecycle event a wire status frame asks for (statusToEvent). */
  function StatusEvent(status: PeerStatus): LifecycleEvent {
    match status
    case StatusOnline => Stop
    case StatusBusy => UserPromptSubmit
    case StatusOffline => TransportDisconnect
  }

  function StatusUpdated(s: State, id: PeerId, status: PeerStatus, now: Time): State {
    if id !in s.peers then s
    else s.(peers := s.peers[id := Transitioned(s.peers[id], StatusEvent(status), now)])
  }

  /** Whether UpdateStatus takes its redelivery branch: an Offline record came back live. */
  predicate StatusRevives(s: State, id: PeerId, status: PeerStatus) {
    id in s.peers && s.peers[id].state == Offline &&
    Apply(Offline, StatusEvent(status)).Next? && Live(Apply(Offline, StatusEvent(status)).state)
  }

  function TurnUpdated(s: State, id: PeerId, turn: TurnState, now: Time): State {
    if id !in s.peers then s
    else s.(peers := s.peers[id := s.peers[id].(peer := s.peers[id].peer.(turn := turn, lastSeen := Some(now)))])
  }

  function TmuxUpdated(s: State, id: PeerId, tmux: string): State {
    if id !in s.peers then s
    else s.(peers := s.peers[id := s.peers[id].(peer := s.peers[id].peer.(tmux := Some(tmux)))])
  }

  function CircleMoved(s: State, id: PeerId, circle: string, now: Time): State {
    if id !in s.peers then s
    else
      var moved := s.(peers := s.peers[id := s.peers[id].(peer := s.peers[id].peer.(circle := circle))]);
      if id in s.mappings then RowUpdated(moved, id, s.mappings[id].(circle := circle, updatedAt := now)) else moved
  }

  /** Other peers with this name and the same backend as id. */
  function Namesakes(s: State, id: PeerId, name: string): set<PeerId>
    requires id in s.peers
  {
    set o | o in s.peers && o != id && s.peers[o].peer.name == name && s.peers[o].peer.backend == s.peers[id].peer.backend
  }

  /** A rename goes through when every namesake is Offline; those ghosts leave the registry, their rows stay. */
  predicate RenameAllowed(s: State, id: PeerId, name: string) {
    id in s.peers && forall o :: o in Namesakes(s, id, name) ==> s.peers[o].state == Offline
  }

  function Renamed(s: State, id: PeerId, name: string, now: Time): State {
    if !RenameAllowed(s, id, name) then s
    else
      var kept := s.peers - Namesakes(s, id, name);
      var moved := s.(peers := kept[id := s.peers[id].(peer := s.peers[id].peer.(name := name))]);
      if id in s.mappings then RowUpdated(moved, id, s.mappings[id].(name := name, updatedAt := now)) else moved
  }

  /** Reading a peer expires its description once it is ttl old; the first read of an undated one dates it. */
  function DescriptionExpired(s: State, id: PeerId, ttl: Time, now: Time): State {
    if id !in s.peers || s.peers[id].peer.description == "" || ttl <= 0 then s
    else if id !in s.describedAt then s.(describedAt := s.describedAt[id := now])
    else if now - s.describedAt[id] < ttl then s
    else
      var cleared := s.(peers := s.peers[id := s.peers[id].(peer := s.peers[id].peer.(description := ""))],
                        describedAt := s.describedAt - {id});
      if id in s.mappings then RowUpdated(cleared, id, s.mappings[id].(description := "", updatedAt := now)) else cleared
  }

  function Described(s: State, id: PeerId, text: string, now: Time): State {
    if id !in s.peers then s
    else
      var told := s.(peers := s.peers[id := s.peers[id].(peer := s.peers[id].peer.(description := text, lastSeen := Some(now)))],
                     describedAt := if text == "" then s.describedAt - {id} else s.describedAt[id := now]);
      if id in s.mappings && s.mappings[id].description != text
      then RowUpdated(told, id, s.mappings[id].(description := text, updatedAt := now)) else told
  }

  function Touched(s: State, id: PeerId, now: Time): State {
    if id !in s.peers then s
    else s.(peers := s.peers[id := s.peers[id].(peer := s.peers[id].peer.(lastSeen := Some(now)))])
  }

  function ModelUpdated(s: State, id: PeerId, model: string, now: Time): State {
    if id !in s.peers || s.peers[id].peer.model == Some(model) then s
    else
      var told := s.(peers := s.peers[id := s.peers[id].(peer := s.peers[id].peer.(model := Some(model), lastSeen := Some(now)))]);
      if id in s.mappings && s.mappings[id].model != Some(model)
      then RowUpdated(told, id, s.mappings[id].(model := Some(model), updatedAt := now)) else told
  }

  function MetadataMerged(s: State, id: PeerId, metadata: Metadata, now: Time): State {
    if id !in s.peers then s
    else s.(peers := s.peers[id := s.peers[id].(peer :=
              s.peers[id].peer.(metadata := s.peers[id].peer.metadata + metadata, lastSeen := Some(now)))])
  }

  function PeerRemoved(s: State, id: PeerId): State {
    if id !in s.peers then s else s.(peers := s.peers - {id}, mappings := s.mappings - {id})
  }

  // ---------------------------------------------------------------------------
  // Repair passes
  // ---------------------------------------------------------------------------

  /** Liveness is not a matter of sockets for brokered and in-process peers. */
  predicate DemoteExempt(q: Peer, acpBroker: bool) {
    (acpBroker && "acp" in q.metadata && q.metadata["acp"] != Null) ||
    ("in_process" in q.metadata && q.metadata["in_process"] != Null)
  }

  /** A live record with neither a socket nor an exemption. */
  predicate Suspect(r: Record, connected: set<PeerId>, acpBroker: bool) {
    Live(r.state) && r.peer.id !in connected && !DemoteExempt(r.peer, acpBroker)
  }

  /** demoteDisconnected's commit: the snapshot's candidates still present go through GhostDemote. */
  function Demoted(s: State, candidates: set<PeerId>, now: Time): State {
    s.(peers := map id | id in s.peers ::
         if id in candidates then Transitioned(s.peers[id], GhostDemote, now) else s.peers[id])
  }

  predicate StaleBusy(r: Record, cutoff: Time) {
    r.state == Busy && r.peer.turn == TurnWorking && LastSeenBefore(r.peer, cutoff)
  }

  function Repaired(r: Record, now: Time): Record {
    var moved := Transitioned(r, Stop, now);
    moved.(peer := moved.peer.(turn := TurnIdle))
  }

  function BusyRepaired(s: State, cutoff: Time, now: Time): State {
    s.(peers := map id | id in s.peers ::
         if StaleBusy(s.peers[id], cutoff) then Repaired(s.peers[id], now) else s.peers[id])
  }

  predicate Dangling(r: Record, cutoff: Time) {
    r.state == Offline && LastSeenBefore(r.peer, cutoff)
  }

  /** The value copies a removal pass takes before it drops the lock. */
  function StaleSnapshot(s: State, cutoff: Time): map<PeerId, Peer> {
    map id | id in s.peers && Dangling(s.peers[id], cutoff) :: s.peers[id].peer
  }

  /** Removable at commit: still dangling, same runtime marker as in the snapshot, no evidence found. */
  predicate Removable(s: State, stale: map<PeerId, Peer>, evidence: set<PeerId>, cutoff: Time, id: PeerId) {
    && id in stale
    && id in s.peers
    && Dangling(s.peers[id], cutoff)
    && RuntimeMarker(s.peers[id].peer) == RuntimeMarker(stale[id])
    && id !in evidence
  }

  function RemovableIds(s: State, stale: map<PeerId, Peer>, evidence: set<PeerId>, cutoff: Time): set<PeerId> {
    set id | id in s.peers && Removable(s, stale, evidence, cutoff, id)
  }

  function Evicted(s: State, stale: map<PeerId, Peer>, evidence: set<PeerId>, cutoff: Time): State {
    var gone := RemovableIds(s, stale, evidence, cutoff);
    s.(peers := s.peers - gone, mappings := s.mappings - gone)
  }

  /** A soft tombstone for each of `gone`. */
  function Entombed(retired: map<PeerId, Retirement>, gone: set<PeerId>, now: Time): map<PeerId, Retirement> {
    retired + map id | id in gone :: Retirement(now, false)
  }

  lemma EntombOneMore(retired: map<PeerId, Retirement>, gone: set<PeerId>, id: PeerId, now: Time)
    ensures Entombed(retired, {}, now) == retired
    ensures Entombed(retired, gone + {id}, now) == Entombed(retired, gone, now)[id := Retirement(now, false)]
  {
  }

  function Reaped(s: State, stale: map<PeerId, Peer>, evidence: set<PeerId>, cutoff: Time, now: Time): State {
    var gone := RemovableIds(s, stale, evidence, cutoff);
    Evicted(s, stale, evidence, cutoff).(retired := Entombed(s.retired, gone, now))
  }

  /** Tombstones no younger than the cutoff survive. */
  function Pruned(s: State, cutoff: Time): State {
    s.(retired := map id | id in s.retired && s.retired[id].at > cutoff :: s.retired[id])
  }

  // ---------------------------------------------------------------------------
  // Registration
  // ---------------------------------------------------------------------------

  datatype Params = Params(
    circle: string,
    backend: string,
    preferred: Option<string>,
    folder: string,
    model: Option<string>,
    path: Option<string>,
    pane: Option<string>,
    tmux: Option<string>,
    machine: string,
    role: Role,
    claimed: Option<PeerId>,
    metadata: Metadata,
    agentPid: Option<int>,
    turn: Option<TurnState>,
    parentPid: Option<int>,
    verified: bool)

  /** What the probes answer at each place registration consults them, and the id a mint would produce.
      `ancestors` is None when there is no process probe or the process table is unreadable. */
  datatype Env = Env(
    agentAlive: bool,
    connectedAtHijack: set<PeerId>,
    aliveAtHolder: set<int>,
    connectedAtHolder: set<PeerId>,
    ancestors: Option<set<int>>,
    paneRoot: Option<int>,
    freshId: PeerId)

  datatype RegisterError = PeerRetired | PaneHijackRejected

  datatype Registration = Registered(id: PeerId, name: string) | Refused(error: RegisterError)

  predicate ClaimsRetired(s: State, p: Params) {
    p.claimed.Some? && p.claimed.value in s.retired
  }

  /** The guard's proof: a live agent process or a verified certificate, against a soft tombstone. */
  predicate ClaimProven(s: State, p: Params, env: Env)
    requires ClaimsRetired(s, p)
  {
    !s.retired[p.claimed.value].hard && ((p.agentPid.Some? && env.agentAlive) || p.verified)
  }

  predicate GuardAccepts(s: State, p: Params, env: Env) {
    ClaimsRetired(s, p) && ClaimProven(s, p, env)
  }

  predicate GuardRefuses(s: State, p: Params, env: Env) {
    ClaimsRetired(s, p) && !ClaimProven(s, p, env)
  }

  function AfterGuard(s: State, p: Params, env: Env): State {
    if GuardAccepts(s, p, env) then Unretire(s, p.claimed.value) else s
  }

  function Seed(p: Params): NameSeed {
    NameSeed(GetOr(p.preferred, ""), if GetOr(p.path, "") != "" then p.folder else "peer", p.backend)
  }

  predicate ClaimUsable(s: State, p: Params) {
    p.claimed.Some? && p.claimed.value != "" &&
    var cid := p.claimed.value;
    if cid in s.peers then
      ClaimMatchesIdentity(s.peers[cid].peer.backend, s.peers[cid].peer.path, p.backend, GetOr(p.path, ""))
    else
      cid in s.mappings &&
      ClaimMatchesIdentity(s.mappings[cid].backend, GetOr(s.mappings[cid].path, ""), p.backend, GetOr(p.path, ""))
  }

  /** Offline records holding the name in the circle: clean-takeover targets. */
  function OfflineTakeovers(s: State, p: Params, name: string): set<PeerId> {
    set id | id in s.peers && Blocks(s.peers[id], name, p.circle) && s.peers[id].state == Offline &&
             ClaimMatchesIdentity(s.peers[id].peer.backend, s.peers[id].peer.path, p.backend, GetOr(p.path, ""))
  }

  /** Durable rows of the same identity. */
  function AdoptableRows(s: State, p: Params, name: string): set<PeerId> {
    set id | id in s.mappings && s.mappings[id].name == name && s.mappings[id].circle == p.circle &&
             ClaimMatchesIdentity(s.mappings[id].backend, GetOr(s.mappings[id].path, ""), p.backend, GetOr(p.path, ""))
  }

  /** The id a registration ends up with: the claim, else a takeover, else an adopted row, else a fresh one.
      The empty id reads as none found, so meeting a row stored under it leads to a mint. */
  ghost predicate IdChosen(s: State, p: Params, env: Env, name: string, id: PeerId) {
    if ClaimUsable(s, p) then id == p.claimed.value
    else if OfflineTakeovers(s, p, name) != {} then id in OfflineTakeovers(s, p, name)
    else if AdoptableRows(s, p, name) != {} then
      (id != "" && id in AdoptableRows(s, p, name)) || ("" in AdoptableRows(s, p, name) && id == env.freshId)
    else id == env.freshId
  }

  /** An orchestrator keeps its pane against any displacement while live and recently seen. */
  predicate StickyOrchestrator(p: Peer, now: Time) {
    p.role == RoleOrchestrator && LiveStatus(p) && RecentlySeen(p, now)
  }

  /** Losing the pane drives a live holder offline; an illegal move keeps both pane and state. */
  function Displaced(r: Record, now: Time): Record {
    if Apply(r.state, PaneDisplaced).Illegal? then r
    else
      var moved := Transitioned(r, PaneDisplaced, now);
      moved.(peer := moved.peer.(pane := None))
  }

  function PaneReleased(peers: map<PeerId, Record>, pane: string, keeper: PeerId, now: Time): map<PeerId, Record> {
    map id | id in peers ::
      if id != keeper && HoldsPane(peers[id].peer, pane) && !StickyOrchestrator(peers[id].peer, now)
      then Displaced(peers[id], now) else peers[id]
  }

  /** The pane given, if any, is released by everyone but the keeper. */
  function PaneTaken(peers: map<PeerId, Record>, pane: Option<string>, keeper: PeerId, now: Time): map<PeerId, Record> {
    if GetOr(pane, "") != "" then PaneReleased(peers, pane.value, keeper, now) else peers
  }

  /** In-place reconnect: back to Online from Offline or Busy, from Retired only when a tombstone was lifted. */
  function ReconnectTarget(state: LifecycleState, recovered: bool): LifecycleState {
    match state
    case Offline => Online
    case Busy => Online
    case Retired => if recovered then Online else Retired
    case other => other
  }

  /** The fields a reconnect refreshes; role, circle, name, path, backend and description are not among them. */
  function Refreshed(r: Record, p: Params, recovered: bool, now: Time): Record {
    var moved := Moved(r, ReconnectTarget(r.state, recovered), now);
    var q := moved.peer;
    moved.(peer := q.(
      model := if p.model.Some? then p.model else q.model,
      pane := if p.pane.Some? then p.pane else q.pane,
      tmux := if p.tmux.Some? then p.tmux else q.tmux,
      machine := if p.machine != "" && p.machine != "unknown" then p.machine else q.machine,
      agentPid := if p.agentPid.Some? then p.agentPid else q.agentPid,
      turn := GetOr(p.turn, q.turn),
      metadata := q.metadata + p.metadata))
  }

  function Reconnected(s: State, id: PeerId, p: Params, recovered: bool, now: Time): State
    requires id in s.peers
  {
    var peers := s.peers[id := Refreshed(s.peers[id], p, recovered, now)];
    var settled := s.(peers := PaneTaken(peers, p.pane, id, now));
    if id in s.mappings then
      var m := s.mappings[id];
      RowUpdated(settled, id, m.(updatedAt := now,
                                 model := if p.model.Some? then p.model else m.model,
                                 agentPid := if p.agentPid.Some? then p.agentPid else m.agentPid))
    else settled
  }

  predicate WantsPane(p: Params) {
    GetOr(p.pane, "") != ""
  }

  /** A live peer on the claimed pane whose agent is the claimant's parent process. */
  predicate DirectParent(q: Peer, p: Params, env: Env, now: Time) {
    p.pane.Some? && HoldsPane(q, p.pane.value) && p.parentPid.Some? && q.agentPid == p.parentPid &&
    (RecentlySeen(q, now) || q.id in env.connectedAtHijack)
  }

  predicate Hijack(s: State, p: Params, env: Env, now: Time) {
    WantsPane(p) && exists id :: id in s.peers && DirectParent(s.peers[id].peer, p, env, now)
  }

  function StickyHolders(s: State, pane: string, now: Time): set<PeerId> {
    set id | id in s.peers && HoldsPane(s.peers[id].peer, pane) && StickyOrchestrator(s.peers[id].peer, now)
  }

  predicate LiveHolder(q: Peer, pane: string, env: Env, now: Time) {
    HoldsPane(q, pane) && LiveStatus(q) &&
    q.agentPid.Some? && q.agentPid.value in env.aliveAtHolder &&
    (RecentlySeen(q, now) || q.id in env.connectedAtHolder)
  }

  function LiveHolders(s: State, pane: string, env: Env, now: Time): set<PeerId> {
    set id | id in s.peers && LiveHolder(s.peers[id].peer, pane, env, now)
  }

  /** Displacing a live holder needs proof that the claimant runs in the pane; an unreadable probe lets it through. */
  predicate PaneClaimProven(holder: Peer, claimant: Option<int>, env: Env) {
    || claimant.None?
    || claimant == holder.agentPid
    || env.ancestors.None?
    || (&& !(holder.agentPid.Some? && holder.agentPid.value in env.ancestors.value)
        && (|| env.paneRoot.None?
            || claimant == env.paneRoot
            || env.paneRoot.value in env.ancestors.value))
  }

  function RestoredRow(s: State, id: PeerId, name: string, p: Params, now: Time): Mapping {
    if id in s.mappings then
      var m := s.mappings[id];
      Mapping(id, m.name, m.circle, p.backend, p.path, m.role, now, m.description,
              if p.model.Some? then p.model else m.model, p.agentPid)
    else
      Mapping(id, name, p.circle, p.backend, p.path, p.role, now, "", p.model, p.agentPid)
  }

  function FreshRecord(row: Mapping, p: Params, pane: Option<string>, now: Time): Record {
    Record(
      Peer(row.id, row.name, GetOr(p.path, ""), p.machine, p.tmux, pane, p.backend, row.model, row.circle, row.role,
           StatusOnline, GetOr(p.turn, TurnUnknown), Some(now), p.metadata, row.description, p.agentPid),
      Online)
  }

  /** A new record under id: a durable row, when there is one, wins over the request. */
  function Created(s: State, id: PeerId, name: string, p: Params, pane: Option<string>, now: Time): State {
    var row := RestoredRow(s, id, name, p, now);
    var peers := s.peers[id := FreshRecord(row, p, pane, now)];
    MarkedDirty(s.(
      peers := PaneTaken(peers, pane, id, now),
      mappings := s.mappings[id := row]))
  }

  function StickyTouched(s: State, h: PeerId, p: Params, now: Time): State
    requires h in s.peers
  {
    var q := s.peers[h].peer;
    s.(peers := s.peers[h := s.peers[h].(peer := q.(
      lastSeen := Some(now),
      model := if p.model.Some? then p.model else q.model,
      turn := GetOr(p.turn, q.turn)))])
  }

  predicate SameWorkspace(q: Peer, p: Params) {
    q.backend == p.backend && q.circle == p.circle
  }

  /** The pane a fresh registration is stored with, for some choice among the live holders. */
  ghost predicate PaneSettled(s: State, p: Params, env: Env, now: Time, pane: Option<string>) {
    if !WantsPane(p) then pane == p.pane
    else if StickyHolders(s, p.pane.value, now) != {} then pane == None
    else if LiveHolders(s, p.pane.value, env, now) != {} then
      exists h :: h in LiveHolders(s, p.pane.value, env, now) &&
                  pane == if PaneClaimProven(s.peers[h].peer, p.agentPid, env) then p.pane else None
    else pane == p.pane
  }

  /** The id names a record: it is reconnected in place. */
  ghost predicate ReconnectAnswer(s: State, p: Params, recovered: bool, now: Time, id: PeerId, s': State, r: Registration) {
    id in s.peers && s' == Reconnected(s, id, p, recovered, now) && r == Registered(id, s.peers[id].peer.name)
  }

  /** The claimed pane belongs to the orchestrator of the claimant's own workspace: that identity is reused. */
  ghost predicate StickyAnswer(s: State, p: Params, now: Time, h: PeerId, s': State, r: Registration) {
    && WantsPane(p)
    && h in StickyHolders(s, p.pane.value, now)
    && SameWorkspace(s.peers[h].peer, p)
    && s' == StickyTouched(s, h, p, now)
    && r == Registered(h, s.peers[h].peer.name)
  }

  /** A record is created under id with the pane the gates settle on. */
  ghost predicate CreatedAnswer(s: State, p: Params, env: Env, now: Time, id: PeerId, name: string, pane: Option<string>,
                                s': State, r: Registration)
  {
    && PaneSettled(s, p, env, now, pane)
    && (WantsPane(p) && StickyHolders(s, p.pane.value, now) != {} ==>
          exists h :: h in StickyHolders(s, p.pane.value, now) && !SameWorkspace(s.peers[h].peer, p))
    && s' == Created(s, id, name, p, pane, now)
    && r == Registered(id, RestoredRow(s, id, name, p, now).name)
  }

  /** A registration whose id is not a live record. */
  ghost predicate FreshRegistered(s: State, p: Params, env: Env, now: Time, id: PeerId, name: string,
                                  s': State, r: Registration)
  {
    if Hijack(s, p, env, now) then
      s' == s && r == Refused(PaneHijackRejected)
    else
      || (exists h :: StickyAnswer(s, p, now, h, s', r))
      || (exists pane :: CreatedAnswer(s, p, env, now, id, name, pane, s', r))
  }

  /** AllocateAndRegister, for some order of every map iteration. */
  ghost predicate Allocated(s: State, p: Params, env: Env, now: Time, s': State, r: Registration) {
    if GuardRefuses(s, p, env) then
      s' == s && r == Refused(PeerRetired)
    else
      exists name, id ::
        AllocatedAs(AfterGuard(s, p, env), p, env, GuardAccepts(s, p, env), now, name, id, s', r)
  }

  /** The part after the guard, for the name and id it settled on. */
  ghost predicate AllocatedAs(s: State, p: Params, env: Env, recovered: bool, now: Time, name: string, id: PeerId,
                              s': State, r: Registration)
  {
    && NameChosen(s.peers, Seed(p), p.circle, RuntimeSession(p.metadata), name)
    && IdChosen(s, p, env, name, id)
    && if id in s.peers then ReconnectAnswer(s, p, recovered, now, id, s', r)
       else FreshRegistered(s, p, env, now, id, name, s', r)
  }

  /** What a mint assumes of a UUID: the id was never in use. */
  predicate MintIsFresh(s: State, env: Env) {
    env.freshId != "" && env.freshId !in s.peers && env.freshId !in s.mappings && env.freshId !in s.retired
  }
}
