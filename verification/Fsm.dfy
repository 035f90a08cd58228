/** The peer lifecycle state machine (daemon-go/peer/fsm.go). */
module Fsm {

  datatype LifecycleState = Unregistered | Online | Busy | Offline | Retired

  datatype LifecycleEvent =
    | Connect
    | UserPromptSubmit
    | Notification
    | Stop
    | TransportDisconnect
    | GhostDemote
    | PaneDisplaced
    | TerminalOffline
    | Reconnect
    | Reap
    | ReclaimWithLiveAgent

  datatype PeerStatus = StatusOnline | StatusBusy | StatusOffline

  /** `Illegal` is the source's ErrIllegalTransition. */
  datatype Transition = Next(state: LifecycleState) | Illegal

  /** `NoStatus` is the source's false flag: nothing to report on the wire. */
  datatype WireStatus = Reported(status: PeerStatus) | NoStatus

  function Apply(s: LifecycleState, e: LifecycleEvent): Transition {
    match s
    case Unregistered =>
      (match e
       case Connect => Next(Online)
       case _ => Illegal)
    case Online =>
      (match e
       case UserPromptSubmit => Next(Busy)
       case Notification => Next(Online)
       case Stop => Next(Online)
       case TransportDisconnect => Next(Offline)
       case GhostDemote => Next(Offline)
       case PaneDisplaced => Next(Offline)
       case TerminalOffline => Next(Retired)
       case _ => Illegal)
    case Busy =>
      (match e
       case Stop => Next(Online)
       case Notification => Next(Online)
       case UserPromptSubmit => Next(Busy)
       case TransportDisconnect => Next(Offline)
       case GhostDemote => Next(Offline)
       case PaneDisplaced => Next(Offline)
       case TerminalOffline => Next(Retired)
       case _ => Illegal)
    case Offline =>
      (match e
       case TerminalOffline => Next(Retired)
       case Reconnect => Next(Online)
       case Reap => Next(Retired)
       case _ => Illegal)
    case Retired =>
      (match e
       case ReclaimWithLiveAgent => Next(Online)
       case _ => Illegal)
  }

  function ToStatus(s: LifecycleState): WireStatus {
    match s
    case Online => Reported(StatusOnline)
    case Busy => Reported(StatusBusy)
    case Offline => Reported(StatusOffline)
    case Retired => Reported(StatusOffline)
    case Unregistered => NoStatus
  }

  /** The moves the diagram allows. */
  predicate Edge(a: LifecycleState, b: LifecycleState) {
    match a
    case Unregistered => b == Online
    case Online => b != Unregistered
    case Busy => b != Unregistered
    case Offline => b == Online || b == Retired
    case Retired => b == Online
  }

  /** The diagram and the transition function are the same relation. */
  lemma EdgesAreTransitions(a: LifecycleState, b: LifecycleState)
    ensures Edge(a, b) <==> exists e :: Apply(a, e) == Next(b)
  {
    if Edge(a, b) {
      var e := match b
        case Online => (if a == Unregistered then Connect else if a == Offline then Reconnect
                        else if a == Retired then ReclaimWithLiveAgent else Stop)
        case Busy => UserPromptSubmit
        case Offline => TransportDisconnect
        case _ => TerminalOffline;
      assert Apply(a, e) == Next(b);
    }
  }

  predicate Live(s: LifecycleState) {
    s == Online || s == Busy
  }

  /** Every caller of Apply leaves the record alone when the move is illegal. */
  function Drive(s: LifecycleState, events: seq<LifecycleEvent>): LifecycleState
    decreases |events|
  {
    if events == [] then s
    else
      var moved := Apply(s, events[0]);
      Drive(if moved.Next? then moved.state else s, events[1..])
  }

  /** Retirement is terminal: only the reclaim event, and no other sequence of events, leaves it. */
  lemma {:induction false} RetiredIsAbsorbing(events: seq<LifecycleEvent>)
    requires ReclaimWithLiveAgent !in events
    ensures Drive(Retired, events) == Retired
  {
    if events != [] {
      assert events[0] in events;
      RetiredIsAbsorbing(events[1..]);
    }
  }

  /** A dead record comes back to life only through Reconnect or ReclaimWithLiveAgent. */
  lemma {:induction false} DeadRevivesOnlyByReconnect(s: LifecycleState, events: seq<LifecycleEvent>)
    requires s == Offline || s == Retired
    requires Live(Drive(s, events))
    ensures Reconnect in events || ReclaimWithLiveAgent in events
    decreases |events|
  {
    if events == [] {
    } else if events[0] != Reconnect && events[0] != ReclaimWithLiveAgent {
      var moved := Apply(s, events[0]);
      DeadRevivesOnlyByReconnect(if moved.Next? then moved.state else s, events[1..]);
    }
  }

  /** Once registered, a record always has a wire status, whatever happens to it. */
  lemma {:induction false} RegisteredStaysReportable(s: LifecycleState, events: seq<LifecycleEvent>)
    requires s != Unregistered
    ensures ToStatus(Drive(s, events)).Reported?
    decreases |events|
  {
    if events != [] {
      var moved := Apply(s, events[0]);
      RegisteredStaysReportable(if moved.Next? then moved.state else s, events[1..]);
    }
  }
}
