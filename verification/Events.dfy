/** The bounded event window (daemon-go/peer/events.go) and the stream handler that reads it
    (daemon-go/hub/events_stream.go), against the full log of everything ever pushed. */
module Events {

  const CAPACITY: nat := 500

  /** The handler looks at nothing but the id. */
  datatype Event = Event(id: string, kind: string)

  /** The last CAPACITY events of a log. */
  function Window(log: seq<Event>): (w: seq<Event>)
    ensures |w| == if |log| <= CAPACITY then |log| else CAPACITY
    ensures w == log[|log| - |w|..]
  {
    if |log| <= CAPACITY then log else log[|log| - CAPACITY..]
  }

  /** Events after the first one with this id; everything when the id is empty or not there. */
  function Since(events: seq<Event>, id: string): seq<Event> {
    if id == "" then events
    else
      var rest := After(events, id);
      if rest.Gone? then events else rest.tail
  }

  datatype Tail = Gone | Tail(tail: seq<Event>)

  function After(events: seq<Event>, id: string): Tail {
    if events == [] then Gone
    else if events[0].id == id then Tail(events[1..])
    else After(events[1..], id)
  }

  // ---------------------------------------------------------------------------
  // The buffer
  // ---------------------------------------------------------------------------

  /** A one-slot wake channel. */
  class Wake {
    var raised: bool

    constructor ()
      ensures !raised
    {
      raised := false;
    }

    /** Non-blocking send: a full slot stays full. */
    method Signal()
      modifies this
      ensures raised
    {
      if !raised {
        raised := true;
      }
    }
  }

  class EventBuffer {
    var events: seq<Event>
    var subscribers: set<Wake>
    ghost var log: seq<Event>

    ghost predicate Valid()
      reads this
    {
      events == Window(log)
    }

    constructor ()
      ensures Valid() && log == [] && subscribers == {}
    {
      events, subscribers, log := [], {}, [];
    }

    /** The locked half of a push: append, evict the oldest, note who is to be woken. */
    method Append(ev: Event) returns (subs: set<Wake>)
      requires Valid()
      modifies this`events, this`log
      ensures Valid() && log == old(log) + [ev]
      ensures subs == subscribers
    {
      events := events + [ev];
      log := log + [ev];
      if |events| > CAPACITY {
        var over := |events| - CAPACITY;
        events := events[over..];
      }
      subs := subscribers;
    }

    /** A whole push: afterwards every channel subscribed at the append is raised. */
    method Push(ev: Event)
      requires Valid()
      modifies this`events, this`log, subscribers
      ensures Valid() && log == old(log) + [ev] && subscribers == old(subscribers)
      ensures forall ch :: ch in subscribers ==> ch.raised
    {
      var subs := Append(ev);
      var todo := subs;
      while todo != {}
        invariant todo <= subs
        invariant forall ch :: ch in subs && ch !in todo ==> ch.raised
        modifies subs
        decreases todo
      {
        var ch :| ch in todo;
        ch.Signal();
        todo := todo - {ch};
      }
    }

    method Subscribe() returns (ch: Wake)
      requires Valid()
      modifies this`subscribers
      ensures Valid() && fresh(ch) && !ch.raised
      ensures subscribers == old(subscribers) + {ch}
    {
      ch := new Wake();
      subscribers := subscribers + {ch};
    }

    method Unsubscribe(ch: Wake)
      requires Valid()
      modifies this`subscribers
      ensures Valid() && subscribers == old(subscribers) - {ch}
    {
      subscribers := subscribers - {ch};
    }

    method GetEvents() returns (out: seq<Event>)
      requires Valid()
      ensures out == Window(log)
    {
      out := events;
    }

    method EventsSince(id: string) returns (out: seq<Event>)
      requires Valid()
      ensures out == Since(Window(log), id)
    {
      if id == "" {
        return events;
      }
      for i := 0 to |events|
        invariant After(events, id) == After(events[i..], id)
      {
        if events[i].id == id {
          return events[i + 1..];
        }
      }
      return events;
    }
  }

  // ---------------------------------------------------------------------------
  // Reads against the full log
  // ---------------------------------------------------------------------------

  /** Ids are minted distinct and non-empty. */
  ghost predicate DistinctIds(log: seq<Event>) {
    && (forall i :: 0 <= i < |log| ==> log[i].id != "")
    && (forall i, j :: 0 <= i < j < |log| ==> log[i].id != log[j].id)
  }

  /** The cursor a reader that has seen the first `seen` events carries. */
  function CursorAt(log: seq<Event>, seen: nat): string
    requires seen <= |log|
  {
    if seen == 0 then "" else log[seen - 1].id
  }

  function Max(a: int, b: int): int {
    if a > b then a else b
  }

  lemma {:induction false} AfterFinds(events: seq<Event>, k: nat)
    requires DistinctIds(events) && k < |events|
    ensures After(events, events[k].id) == Tail(events[k + 1..])
  {
    if k > 0 {
      AfterFinds(events[1..], k - 1);
      assert events[1..][k - 1 + 1..] == events[k + 1..];
    }
  }

  lemma {:induction false} AfterMisses(events: seq<Event>, id: string)
    requires forall i :: 0 <= i < |events| ==> events[i].id != id
    ensures After(events, id) == Gone
  {
    if events != [] {
      AfterMisses(events[1..], id);
    }
  }

  lemma SuffixIsDistinct(log: seq<Event>, base: nat)
    requires DistinctIds(log) && base <= |log|
    ensures DistinctIds(log[base..])
  {
  }

  /** The event before position `seen` is still held: the read continues right behind it. */
  lemma ReadFromHeld(log: seq<Event>, base: nat, seen: nat)
    requires DistinctIds(log) && base < seen <= |log|
    ensures Since(log[base..], log[seen - 1].id) == log[seen..]
  {
    hide After, DistinctIds;
    var held, k := log[base..], seen - 1 - base;
    SuffixIsDistinct(log, base);
    AfterFinds(held, k);
    NoEmptyId(log, seen - 1);
    assert held[k] == log[seen - 1];
    assert held[k + 1..] == log[seen..];
  }

  lemma NoEmptyId(log: seq<Event>, i: nat)
    requires DistinctIds(log) && i < |log|
    ensures log[i].id != ""
    ensures forall j :: i < j < |log| ==> log[j].id != log[i].id
  {
  }

  /** It is no longer held: the read starts at the oldest event that is. */
  lemma ReadFromGone(log: seq<Event>, base: nat, seen: nat)
    requires DistinctIds(log) && 0 < seen <= base <= |log|
    ensures Since(log[base..], log[seen - 1].id) == log[base..]
  {
    hide After, DistinctIds;
    NoEmptyId(log, seen - 1);
    AfterMisses(log[base..], log[seen - 1].id);
  }

  /** Reading any suffix that is still held continues after the cursor, or at the start of the suffix. */
  lemma ReadFrom(log: seq<Event>, base: nat, seen: nat)
    requires DistinctIds(log) && base <= |log| && seen <= |log|
    ensures Since(log[base..], CursorAt(log, seen)) == log[Max(seen, base)..]
  {
    hide After, DistinctIds;
    if seen > base {
      ReadFromHeld(log, base, seen);
    } else if seen > 0 {
      ReadFromGone(log, base, seen);
    }
  }

  /** A read from a cursor continues where the reader left off, or, when more than the window's worth was pushed
      since, at the oldest event still held: also when the cursor itself was evicted. */
  lemma ReadContinues(log: seq<Event>, seen: nat)
    requires DistinctIds(log) && seen <= |log|
    ensures Since(Window(log), CursorAt(log, seen)) == log[Max(seen, |log| - 500)..]
  {
    hide Since, CursorAt, DistinctIds;
    ReadFrom(log, |log| - |Window(log)|, seen);
  }

  // ---------------------------------------------------------------------------
  // One stream among concurrent pushes
  // ---------------------------------------------------------------------------

  /** Where the handler is. A batch is the log range [first, end), of which [first, next) was handed to the client. */
  datatype Phase =
    | Fresh
    | Subscribed
    | Flushing(first: nat, next: nat, end: nat)
    | Flushed
    | Waiting
    | Woken
    | Writing(first: nat, next: nat, end: nat)
    | Closed

  /** `pending` counts the pushers that appended after the subscription and have not signalled yet. `handed` lists the
      log positions given to the client, `seen` the log length at the handler's last read, `drained` at its drain. */
  datatype Stream = Stream(
    log: seq<Event>,
    pending: nat,
    token: bool,
    phase: Phase,
    cursor: string,
    handed: seq<nat>,
    seen: nat,
    drained: nat)

  datatype Action =
    | PushAppend(ev: Event)
    | PushSignal
    | Subscribe
    | ReadInitial
    | Write(succeeds: bool)
    | FinishBatch
    | Drain
    | TakeToken
    | ReadSince
    | Leave

  ghost predicate Start(x: Stream) {
    DistinctIds(x.log) && x == Stream(x.log, 0, false, Fresh, "", [], 0, 0)
  }

  predicate InBatch(x: Stream) {
    x.phase.Flushing? || x.phase.Writing?
  }

  ghost predicate Act(x: Stream, a: Action, y: Stream) {
    match a
    case PushAppend(ev) =>
      && DistinctIds(x.log + [ev])
      && y == x.(log := x.log + [ev], pending := if x.phase.Fresh? then x.pending else x.pending + 1)
    case PushSignal =>
      x.pending > 0 && y == x.(pending := x.pending - 1, token := true)
    case Subscribe =>
      x.phase.Fresh? && y == x.(phase := Subscribed)
    case ReadInitial =>
      var start := |x.log| - |Window(x.log)|;
      x.phase.Subscribed? && y == x.(phase := Flushing(start, start, |x.log|), seen := |x.log|)
    case Write(succeeds) =>
      && InBatch(x) && x.phase.next < x.phase.end
      && y == if succeeds then x.(phase := x.phase.(next := x.phase.next + 1), handed := x.handed + [x.phase.next])
              else x.(phase := Closed)
    case FinishBatch =>
      && InBatch(x) && x.phase.next >= x.phase.end
      && y == x.(phase := if x.phase.Flushing? then Flushed else Waiting,
                 cursor := if x.phase.first < x.phase.end && x.phase.end <= |x.log| then x.log[x.phase.end - 1].id else x.cursor)
    case Drain =>
      x.phase.Flushed? && y == x.(phase := Waiting, token := false, drained := |x.log|)
    case TakeToken =>
      x.phase.Waiting? && x.token && y == x.(phase := Woken, token := false)
    case ReadSince =>
      var tail := Since(Window(x.log), x.cursor);
      x.phase.Woken? && |tail| <= |x.log| &&
      y == x.(phase := Writing(|x.log| - |tail|, |x.log| - |tail|, |x.log|), seen := |x.log|)
    case Leave =>
      y == x.(phase := Closed)
  }

  ghost predicate Increasing(q: seq<nat>) {
    forall i, j :: 0 <= i < j < |q| ==> q[i] < q[j]
  }

  /** Everything handed so far lies below `bound`. */
  ghost predicate Below(q: seq<nat>, bound: nat) {
    forall i :: 0 <= i < |q| ==> q[i] < bound
  }

  ghost predicate StreamInv(x: Stream) {
    && DistinctIds(x.log)
    && x.seen <= |x.log| && x.drained <= |x.log|
    && Increasing(x.handed) && Below(x.handed, x.seen)
    && (x.phase.Fresh? || x.phase.Subscribed? ==> x.handed == [] && x.seen == 0 && x.cursor == "")
    && (InBatch(x) ==>
          && x.phase.first <= x.phase.next <= x.phase.end == x.seen
          && Below(x.handed, x.phase.next)
          && (x.phase.first == x.phase.end ==> x.cursor == CursorAt(x.log, x.seen)))
    && (x.phase.Flushed? || x.phase.Waiting? || x.phase.Woken? ==> x.cursor == CursorAt(x.log, x.seen))
    && (x.phase.Waiting? || x.phase.Writing? ==> |x.log| > Max(x.seen, x.drained) ==> x.token || x.pending > 0)
  }

  lemma PushKeepsStream(x: Stream, ev: Event, y: Stream)
    requires StreamInv(x) && Act(x, PushAppend(ev), y)
    ensures StreamInv(y)
  {
    hide DistinctIds, Increasing, Below;
  }

  lemma WriteKeepsStream(x: Stream, succeeds: bool, y: Stream)
    requires StreamInv(x) && Act(x, Write(succeeds), y)
    ensures StreamInv(y)
  {
    hide DistinctIds, CursorAt;
  }

  /** How much a read returns. */
  lemma ReadSpan(log: seq<Event>, seen: nat)
    requires DistinctIds(log) && seen <= |log|
    ensures |Since(Window(log), CursorAt(log, seen))| == |log| - Max(seen, |log| - CAPACITY)
    ensures |Window(log)| == |log| - Max(0, |log| - CAPACITY)
    ensures CursorAt(log, 0) == ""
  {
    hide Since, DistinctIds;
    ReadContinues(log, seen);
  }

  /** A read begins a batch that ends at the end of the log; nothing is handed yet. */
  lemma ReadKeepsStream(x: Stream, a: Action, y: Stream)
    requires a.ReadInitial? || a.ReadSince?
    requires StreamInv(x) && Act(x, a, y)
    ensures StreamInv(y)
  {
    hide DistinctIds, Increasing, Since, CursorAt, Window;
    ReadSpan(x.log, x.seen);
  }

  lemma FinishKeepsStream(x: Stream, y: Stream)
    requires StreamInv(x) && Act(x, FinishBatch, y)
    ensures StreamInv(y)
  {
    hide DistinctIds, Increasing, Below;
  }

  lemma ActionKeepsStream(x: Stream, a: Action, y: Stream)
    requires StreamInv(x) && Act(x, a, y)
    ensures StreamInv(y)
  {
    match a
    case PushAppend(ev) => hide StreamInv, Act; PushKeepsStream(x, ev, y);
    case Write(succeeds) => hide StreamInv, Act; WriteKeepsStream(x, succeeds, y);
    case ReadInitial => hide StreamInv, Act; ReadKeepsStream(x, a, y);
    case ReadSince => hide StreamInv, Act; ReadKeepsStream(x, a, y);
    case FinishBatch => hide StreamInv, Act; FinishKeepsStream(x, y);
    case _ => hide DistinctIds, Increasing, Below, CursorAt;
  }

  ghost predicate StreamRun(states: seq<Stream>, actions: seq<Action>) {
    && |states| == |actions| + 1
    && Start(states[0])
    && forall i :: 0 <= i < |actions| ==> Act(states[i], actions[i], states[i + 1])
  }

  lemma {:induction false} ReachableStreams(states: seq<Stream>, actions: seq<Action>, i: nat)
    requires StreamRun(states, actions) && i < |states|
    ensures StreamInv(states[i])
  {
    hide Act, StreamInv;
    if i > 0 {
      ReachableStreams(states, actions, i - 1);
      ActionKeepsStream(states[i - 1], actions[i - 1], states[i]);
    } else {
      StartsWell(states[0]);
    }
  }

  lemma StartsWell(x: Stream)
    requires Start(x)
    ensures StreamInv(x)
  {
  }

  /** In every interleaving of pushes with the stream, the client is handed strictly increasing positions of the
      push log: nothing twice, nothing out of order, nothing that was not pushed. */
  lemma HandedInOrder(states: seq<Stream>, actions: seq<Action>, i: nat)
    requires StreamRun(states, actions) && i < |states|
    ensures Increasing(states[i].handed) && Below(states[i].handed, |states[i].log|)
  {
    ReachableStreams(states, actions, i);
  }

  /** No wake-up read found more than the window's worth of new events. */
  ghost predicate NeverOverrun(states: seq<Stream>, actions: seq<Action>, i: nat)
    requires i < |states| && |states| == |actions| + 1
  {
    forall k :: 0 <= k < i && actions[k].ReadSince? ==> |states[k].log| - states[k].seen <= 500
  }

  ghost predicate Range(q: seq<nat>, first: nat) {
    forall i :: 0 <= i < |q| ==> q[i] == first + i
  }

  /** Handed so far: an unbroken range ending where the current batch stands. */
  ghost predicate Contiguous(x: Stream) {
    x.handed != [] ==>
      && Range(x.handed, x.handed[0])
      && (InBatch(x) ==> x.handed[0] + |x.handed| == x.phase.next)
      && (x.phase.Flushed? || x.phase.Waiting? || x.phase.Woken? ==> x.handed[0] + |x.handed| == x.seen)
  }

  lemma StepStaysContiguous(x: Stream, a: Action, y: Stream)
    requires StreamInv(x) && Act(x, a, y) && Contiguous(x)
    requires a.ReadSince? ==> |x.log| - x.seen <= CAPACITY
    ensures Contiguous(y)
  {
    match a
    case ReadSince =>
      ReadContinues(x.log, x.seen);
    case _ =>
  }

  /** The stream has no gap unless more than CAPACITY events were pushed between two consecutive reads. */
  lemma {:induction false} ContiguousUnlessOverrun(states: seq<Stream>, actions: seq<Action>, i: nat)
    requires StreamRun(states, actions) && i < |states|
    requires NeverOverrun(states, actions, i)
    ensures Contiguous(states[i])
  {
    hide Act, StreamInv, Contiguous;
    if i > 0 {
      ContiguousUnlessOverrun(states, actions, i - 1);
      ReachableStreams(states, actions, i - 1);
      StepStaysContiguous(states[i - 1], actions[i - 1], states[i]);
    } else {
      NothingIsContiguous(states[0]);
    }
  }

  lemma NothingIsContiguous(x: Stream)
    requires Start(x)
    ensures Contiguous(x)
  {
  }

  /** What a read that overran loses is exactly the events evicted since the last one. */
  lemma OverrunLosesTheEvicted(states: seq<Stream>, actions: seq<Action>, i: nat)
    requires StreamRun(states, actions) && i < |actions|
    requires actions[i].ReadSince?
    ensures states[i + 1].phase == Writing(Max(states[i].seen, |states[i].log| - 500),
                                           Max(states[i].seen, |states[i].log| - 500), |states[i].log|)
  {
    ReachableStreams(states, actions, i);
    assert Act(states[i], actions[i], states[i + 1]);
    ReadContinues(states[i].log, states[i].seen);
  }

  /** The initial read takes up the last 500 events there are, or all of them. */
  lemma InitialReadIsTheWindow(x: Stream, y: Stream)
    requires Act(x, ReadInitial, y)
    ensures y.phase == Flushing(Max(0, |x.log| - 500), Max(0, |x.log| - 500), |x.log|) && y.seen == |x.log|
  {
  }

  /** The last position handed so far, or -1. */
  function LastHanded(x: Stream): int {
    if x.handed == [] then -1 else x.handed[|x.handed| - 1]
  }

  /** Within a batch everything before its next event was handed; between batches, everything read. */
  ghost predicate UpToRead(x: Stream) {
    && (InBatch(x) && x.phase.first < x.phase.next ==> LastHanded(x) == x.phase.next - 1)
    && (InBatch(x) && x.phase.first == x.phase.next == x.phase.end ==> LastHanded(x) == x.seen - 1)
    && (x.phase.Flushed? || x.phase.Waiting? || x.phase.Woken? ==> LastHanded(x) == x.seen - 1)
  }

  lemma StepStaysUpToRead(x: Stream, a: Action, y: Stream)
    requires StreamInv(x) && Act(x, a, y) && UpToRead(x)
    ensures UpToRead(y)
  {
    hide Increasing, Below, DistinctIds, CursorAt;
    if a.ReadSince? {
      ReadSpan(x.log, x.seen);
    } else if a.ReadInitial? {
      InitialReadIsTheWindow(x, y);
    }
  }

  /** Whenever the handler waits, the last event it read is the last one the client was handed: reading nothing new hands
      nothing, and no batch is left unfinished. */
  lemma {:induction false} WhatIsReadIsHanded(states: seq<Stream>, actions: seq<Action>, i: nat)
    requires StreamRun(states, actions) && i < |states|
    ensures UpToRead(states[i])
    ensures states[i].phase.Waiting? ==> LastHanded(states[i]) == states[i].seen - 1
  {
    hide Act, StreamInv;
    if i > 0 {
      WhatIsReadIsHanded(states, actions, i - 1);
      ReachableStreams(states, actions, i - 1);
      StepStaysUpToRead(states[i - 1], actions[i - 1], states[i]);
    }
  }

  /** Coalescing never loses the last wake: once the initial drain is over, an event pushed since both the last read
      and the drain is announced by the token, or by a pusher about to signal, or the handler is about to read. */
  lemma WakeIsNeverLost(states: seq<Stream>, actions: seq<Action>, i: nat)
    requires StreamRun(states, actions) && i < |states|
    requires states[i].phase.Waiting? || states[i].phase.Woken? || states[i].phase.Writing?
    requires |states[i].log| > Max(states[i].seen, states[i].drained)
    ensures states[i].token || states[i].pending > 0 || states[i].phase.Woken?
  {
    ReachableStreams(states, actions, i);
  }

  /** When nothing is on its way, the client is up to date exactly unless the drain swallowed a wake: an event was
      pushed between the initial read and the drain, and no read has happened since. */
  lemma QuietMeansUpToDateExactlyWhen(states: seq<Stream>, actions: seq<Action>, i: nat)
    requires StreamRun(states, actions) && i < |states|
    requires states[i].phase.Waiting? && !states[i].token && states[i].pending == 0
    ensures states[i].seen == |states[i].log| <==> states[i].drained <= states[i].seen
  {
    ReachableStreams(states, actions, i);
  }

  lemma OneEventLog(ev: Event)
    requires ev.id != ""
    ensures DistinctIds([]) && DistinctIds([ev]) && Window([]) == []
  {
  }

  /** That swallowing does happen: the wake of an event pushed during the initial flush is discarded. */
  lemma DrainSwallowsWake(ev: Event) returns (states: seq<Stream>, actions: seq<Action>)
    requires ev.id != ""
    ensures StreamRun(states, actions)
    ensures var last := states[|states| - 1];
            last.phase.Waiting? && !last.token && last.pending == 0 && last.handed == [] && last.log == [ev]
  {
    hide Since, CursorAt, DistinctIds, Window;
    OneEventLog(ev);
    var s0 := Stream([], 0, false, Fresh, "", [], 0, 0);
    var s1 := s0.(phase := Subscribed);
    var s2 := s1.(phase := Flushing(0, 0, 0));
    var s3 := s2.(log := [ev], pending := 1);
    var s4 := s3.(pending := 0, token := true);
    var s5 := s4.(phase := Flushed);
    var s6 := s5.(phase := Waiting, token := false, drained := 1);
    states := [s0, s1, s2, s3, s4, s5, s6];
    actions := [Subscribe, ReadInitial, PushAppend(ev), PushSignal, FinishBatch, Drain];
    assert s2.log + [ev] == [ev];
    assert Act(s0, Subscribe, s1) && Act(s1, ReadInitial, s2) && Act(s2, PushAppend(ev), s3);
    assert Act(s3, PushSignal, s4) && Act(s4, FinishBatch, s5) && Act(s5, Drain, s6);
  }
}
