/** Peer records, durable mapping rows and tombstones (daemon-go/proto/proto.go, daemon-go/peer/store.go). */
module Peers {
  import opened Fsm

  type PeerId = string
  type Time = int

  datatype Option<+T> = None | Some(value: T)

  datatype Role = RoleAgent | RoleService | RoleOrchestrator | RoleHuman | RoleOther(text: string)

  datatype TurnState = TurnUnknown | TurnIdle | TurnWorking | TurnAwaitingInput | TurnPendingFirstTurn

  /** A metadata value; only its being null, a string or something else matters. */
  datatype Value = Null | Text(text: string) | Opaque(tag: int)

  type Metadata = map<string, Value>

  datatype Peer = Peer(
    id: PeerId,
    name: string,
    path: string,
    machine: string,
    tmux: Option<string>,
    pane: Option<string>,
    backend: string,
    model: Option<string>,
    circle: string,
    role: Role,
    status: PeerStatus,
    turn: TurnState,
    lastSeen: Option<Time>,
    metadata: Metadata,
    description: string,
    agentPid: Option<int>)

  /** A peer paired with its authoritative lifecycle state (peerState). */
  datatype Record = Record(peer: Peer, state: LifecycleState)

  datatype Mapping = Mapping(
    id: PeerId,
    name: string,
    circle: string,
    backend: string,
    path: Option<string>,
    role: Role,
    updatedAt: Time,
    description: string,
    model: Option<string>,
    agentPid: Option<int>)

  datatype Retirement = Retirement(at: Time, hard: bool)

  const SECOND: Time := 1_000_000_000
  const PANE_HEARTBEAT_TOLERANCE: Time := 60 * SECOND

  predicate BypassesCircles(r: Role) {
    r == RoleService || r == RoleOrchestrator || r == RoleHuman
  }

  function GetOr<T>(o: Option<T>, default: T): T {
    if o.Some? then o.value else default
  }

  predicate LiveStatus(p: Peer) {
    p.status == StatusOnline || p.status == StatusBusy
  }

  predicate SeenWithin(p: Peer, now: Time, tolerance: Time) {
    p.lastSeen.Some? && now - p.lastSeen.value <= tolerance
  }

  predicate RecentlySeen(p: Peer, now: Time) {
    SeenWithin(p, now, PANE_HEARTBEAT_TOLERANCE)
  }

  /** lastSeenAfter: an unset timestamp sorts oldest. */
  predicate SeenAfter(a: Peer, b: Peer) {
    a.lastSeen.Some? && (b.lastSeen.None? || a.lastSeen.value > b.lastSeen.value)
  }

  predicate HoldsPane(p: Peer, pane: string) {
    p.pane == Some(pane)
  }

  predicate Paned(p: Peer) {
    p.pane.Some? && p.pane.value != ""
  }

  predicate LastSeenBefore(p: Peer, cutoff: Time) {
    p.lastSeen.Some? && p.lastSeen.value < cutoff
  }

  /** Same backend, and paths agree unless one side is unset (claimMatchesIdentity). */
  predicate ClaimMatchesIdentity(backend: string, path: string, claimBackend: string, claimPath: string) {
    backend == claimBackend && (path == "" || claimPath == "" || path == claimPath)
  }

  function SessionAt(metadata: Metadata, key: string): string {
    if key in metadata && metadata[key].Text? then metadata[key].text else ""
  }

  /** First non-empty string among the three session keys, in this order (runtimeSessionID). */
  function RuntimeSession(metadata: Metadata): string {
    if SessionAt(metadata, "hook_session_id") != "" then SessionAt(metadata, "hook_session_id")
    else if SessionAt(metadata, "runtime_session_id") != "" then SessionAt(metadata, "runtime_session_id")
    else SessionAt(metadata, "session_id")
  }

  /** The (agent_pid, pane) pair a removal pass compares; unset reads as 0 and "". */
  function RuntimeMarker(p: Peer): (int, string) {
    (GetOr(p.agentPid, 0), GetOr(p.pane, ""))
  }
}
