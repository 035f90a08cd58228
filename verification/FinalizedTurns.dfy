/** The bounded recency set of finalised turns (daemon-go/hub/routes_events.go). */
module FinalizedTurns {
  import Peers
  import opened Collections

  const CAPACITY: nat := 4096

  function TurnKey(session: Peers.Option<string>, turn: string): string {
    (if Peers.GetOr(session, "") != "" then session.value else "legacy") + ":" + turn
  }

  /** Two finalised turns count as one exactly when session and turn agree, as long as no session contains a colon; an
      absent or empty session is the session "legacy". */
  lemma KeysTellTurnsApart(session: Peers.Option<string>, turn: string, session': Peers.Option<string>, turn': string)
    requires ':' !in Peers.GetOr(session, "") && ':' !in Peers.GetOr(session', "")
    ensures
      var given := if session.Some? && session.value != "" then session.value else "legacy";
      var given' := if session'.Some? && session'.value != "" then session'.value else "legacy";
      TurnKey(session, turn) == TurnKey(session', turn') <==> given == given' && turn == turn'
  {
    var given := if session.Some? && session.value != "" then session.value else "legacy";
    var given' := if session'.Some? && session'.value != "" then session'.value else "legacy";
    FirstColonSplits(given, turn, given', turn');
  }

  lemma FirstColonSplits(a: string, u: string, b: string, v: string)
    requires ':' !in a && ':' !in b
    ensures a + ":" + u == b + ":" + v <==> a == b && u == v
  {
    var x, y := a + ":" + u, b + ":" + v;
    assert x[|a|] == ':' && y[|b|] == ':';
    assert forall i :: 0 <= i < |a| ==> x[i] == a[i] != ':';
    assert forall i :: 0 <= i < |b| ==> y[i] == b[i] != ':';
    if x == y {
      assert |a| == |b|;
      assert x[..|a|] == a && y[..|b|] == b && x[|a| + 1..] == u && y[|b| + 1..] == v;
    }
  }

  /** The distinct keys after the last occurrence of k. */
  ghost function Later(q: seq<string>, k: string): set<string> {
    if q == [] || q[|q| - 1] == k then {} else Later(q[..|q| - 1], k) + {q[|q| - 1]}
  }

  /** Later means what it says: the elements behind the last k. */
  lemma {:induction false} LaterIsTheTail(q: seq<string>, i: nat)
    requires i < |q| && q[i] !in q[i + 1..]
    ensures Later(q, q[i]) == Elements(q[i + 1..])
  {
    var last, init := q[|q| - 1], q[..|q| - 1];
    if i < |q| - 1 {
      assert last == q[i + 1..][|q| - 2 - i];
      assert init[i + 1..] + [last] == q[i + 1..];
      LaterIsTheTail(init, i);
    }
  }

  function Without(q: seq<string>, k: string): seq<string> {
    if q == [] then []
    else
      var last := q[|q| - 1];
      Without(q[..|q| - 1], k) + if last == k then [] else [last]
  }

  /** One mark: the key moves to, or joins, the back; beyond capacity the front is dropped. */
  function Remember(order: seq<string>, k: string): seq<string> {
    var moved := Without(order, k) + [k];
    if |moved| > CAPACITY then moved[1..] else moved
  }

  /** The order after a history of marks. */
  function Remembered(marks: seq<string>): seq<string> {
    if marks == [] then [] else Remember(Remembered(marks[..|marks| - 1]), marks[|marks| - 1])
  }

  ghost predicate Distinct(q: seq<string>) {
    forall i, j :: 0 <= i < j < |q| ==> q[i] != q[j]
  }

  lemma {:induction false} WithoutFacts(q: seq<string>, k: string)
    requires Distinct(q)
    ensures Distinct(Without(q, k))
    ensures forall x :: x in Without(q, k) <==> x in q && x != k
    ensures |Without(q, k)| == if k in q then |q| - 1 else |q|
    ensures k !in q ==> Without(q, k) == q
  {
    if q != [] {
      var last, init := q[|q| - 1], q[..|q| - 1];
      assert q == init + [last] && last !in init;
      WithoutFacts(init, k);
      if last == k {
        assert Without(q, k) == Without(init, k);
      }
    }
  }

  lemma {:induction false} LaterWithout(q: seq<string>, k: string, x: string)
    requires x in q && x != k
    ensures Later(Without(q, k), x) == Later(q, x) - {k}
  {
    var last, init := q[|q| - 1], q[..|q| - 1];
    assert q == init + [last];
    if last != x {
      LaterWithout(init, k, x);
    }
    if last == k {
      assert Without(q, k) == Without(init, k);
    } else {
      assert Without(q, k)[..|Without(q, k)| - 1] == Without(init, k);
    }
  }

  lemma {:induction false} LaterInTail(q: seq<string>, x: string)
    requires q != [] && x in q[1..]
    ensures Later(q[1..], x) == Later(q, x)
  {
    var last := q[|q| - 1];
    if last != x {
      var init := q[..|q| - 1];
      assert q[1..][..|q| - 2] == init[1..];
      assert q[1..] == init[1..] + [last];
      LaterInTail(init, x);
    }
  }

  lemma {:induction false} LaterSize(q: seq<string>)
    requires q != [] && Distinct(q)
    ensures |Later(q, q[0])| == |q| - 1
    ensures forall x :: x in Later(q, q[0]) ==> x in q
  {
    if |q| > 1 {
      var last, init := q[|q| - 1], q[..|q| - 1];
      LaterSize(init);
      assert last !in init;
    }
  }

  /** What the order remembers of a history: each key's later keys while it is remembered, and that a forgotten
      key has a full capacity of later keys. */
  ghost predicate Faithful(marks: seq<string>, order: seq<string>) {
    && Distinct(order) && |order| <= CAPACITY
    && (forall k :: k in order ==> k in marks && Later(order, k) == Later(marks, k))
    && (forall k :: k in marks && k !in order ==> |Later(marks, k)| >= CAPACITY)
  }

  lemma RememberIsFaithful(marks: seq<string>, order: seq<string>, k: string)
    requires Faithful(marks, order)
    ensures Faithful(marks + [k], Remember(order, k))
  {
    MoveKeepsLater(marks, order, k);
    DropKeepsLater(marks + [k], Without(order, k) + [k]);
  }

  /** Faithful but for the capacity, which a new key may exceed by one. */
  ghost predicate NearlyFaithful(marks: seq<string>, order: seq<string>) {
    && Distinct(order) && |order| <= CAPACITY + 1
    && (forall k :: k in order ==> k in marks && Later(order, k) == Later(marks, k))
    && (forall k :: k in marks && k !in order ==> |Later(marks, k)| >= CAPACITY)
  }

  lemma LaterSnoc(q: seq<string>, k: string, x: string)
    ensures Later(q + [k], x) == if x == k then {} else Later(q, x) + {k}
  {
    assert (q + [k])[..|q|] == q;
  }

  /** Moving to, or joining, the back drops only the key itself from anyone's later keys. */
  lemma LaterMoved(order: seq<string>, k: string, x: string)
    requires x in order && x != k
    ensures Later(Without(order, k) + [k], x) == Later(order, x) + {k}
  {
    hide Later, Without;
    LaterSnoc(Without(order, k), k, x);
    LaterWithout(order, k, x);
  }

  lemma MoveIsDistinct(order: seq<string>, k: string)
    requires Distinct(order) && |order| <= CAPACITY
    ensures Distinct(Without(order, k) + [k]) && |Without(order, k) + [k]| <= CAPACITY + 1
    ensures forall x :: x in Without(order, k) + [k] <==> x in order || x == k
  {
    hide Without;
    WithoutFacts(order, k);
  }

  lemma MoveKeepsLater(marks: seq<string>, order: seq<string>, k: string)
    requires Faithful(marks, order)
    ensures NearlyFaithful(marks + [k], Without(order, k) + [k])
  {
    hide Later, Without, Distinct;
    MoveIsDistinct(order, k);
    var marks', moved := marks + [k], Without(order, k) + [k];
    forall x | x in moved ensures x in marks' && Later(moved, x) == Later(marks', x) {
      LaterSnoc(marks, k, x);
      if x == k {
        LaterSnoc(Without(order, k), k, k);
      } else {
        LaterMoved(order, k, x);
      }
    }
    forall x | x in marks' && x !in moved ensures |Later(marks', x)| >= CAPACITY {
      LaterSnoc(marks, k, x);
      SubsetSize(Later(marks, x), Later(marks', x));
    }
  }

  lemma TailIsDistinct(q: seq<string>)
    requires q != [] && Distinct(q)
    ensures Distinct(q[1..]) && forall x :: x in q <==> x == q[0] || x in q[1..]
    ensures q[0] !in q[1..]
  {
    assert q == [q[0]] + q[1..];
  }

  lemma DropKeepsLater(marks: seq<string>, moved: seq<string>)
    requires NearlyFaithful(marks, moved)
    ensures Faithful(marks, if |moved| > CAPACITY then moved[1..] else moved)
  {
    hide Later, Distinct;
    if |moved| > CAPACITY {
      LaterSize(moved);
      TailIsDistinct(moved);
      forall x | x in moved[1..] ensures Later(moved[1..], x) == Later(moved, x) {
        LaterInTail(moved, x);
      }
    }
  }

  lemma {:induction false} RememberedIsFaithful(marks: seq<string>)
    ensures Faithful(marks, Remembered(marks))
  {
    if marks != [] {
      var init := marks[..|marks| - 1];
      RememberedIsFaithful(init);
      RememberIsFaithful(init, Remembered(init), marks[|marks| - 1]);
      assert init + [marks[|marks| - 1]] == marks;
    }
  }

  /** After any history of marks, a key is remembered exactly when it was marked and fewer than CAPACITY other
      distinct keys were marked since its last mark. */
  lemma RememberedExactlyWhen(marks: seq<string>, k: string)
    ensures k in Remembered(marks) <==> k in marks && |Later(marks, k)| < CAPACITY
    ensures |Remembered(marks)| <= CAPACITY && Distinct(Remembered(marks))
  {
    RememberedIsFaithful(marks);
    if k in Remembered(marks) {
      var order := Remembered(marks);
      var i :| 0 <= i < |order| && order[i] == k;
      LaterBounded(order, i);
    }
  }

  lemma {:induction false} LaterBounded(q: seq<string>, i: nat)
    requires Distinct(q) && i < |q|
    ensures |Later(q, q[i])| <= |q| - 1 - i
  {
    if i < |q| - 1 {
      LaterBounded(q[..|q| - 1], i);
    }
  }

  class FinalizedSet {
    var keys: set<string>
    var order: seq<string>
    ghost var marks: seq<string>

    ghost predicate Valid()
      reads this
    {
      order == Remembered(marks) && keys == Elements(order)
    }

    constructor ()
      ensures Valid() && marks == []
    {
      keys, order, marks := {}, [], [];
    }

    /** The key is known: move it to the back. */
    method MoveToBack(key: string)
      requires Distinct(order) && key in order
      modifies this`order
      ensures order == Without(old(order), key) + [key]
    {
      for i := 0 to |order|
        invariant order == old(order) && key !in order[..i]
      {
        if order[i] == key {
          RemoveAt(order, i);
          order := order[..i] + order[i + 1..];
          order := order + [key];
          return;
        }
      }
    }

    /** The key is new: append it and evict from the front down to capacity. */
    method Insert(key: string)
      requires Distinct(order) && |order| <= CAPACITY && keys == Elements(order) && key !in keys
      modifies this`order, this`keys
      ensures order == Remember(old(order), key) && keys == Elements(order)
    {
      WithoutFacts(order, key);
      ghost var full := order + [key];
      keys := keys + {key};
      order := order + [key];
      while |order| > CAPACITY
        invariant order == full || (|full| == CAPACITY + 1 && order == full[1..])
        invariant keys == Elements(order)
        decreases |order|
      {
        var oldest := order[0];
        assert order == [oldest] + order[1..] && oldest !in order[1..];
        order := order[1..];
        keys := keys - {oldest};
      }
    }

    method MarkTurnFinalized(turn: string, session: Peers.Option<string>)
      requires Valid()
      modifies this
      ensures Valid() && marks == old(marks) + [TurnKey(session, turn)]
    {
      var key := TurnKey(session, turn);
      RememberedExactlyWhen(marks, key);
      WithoutFacts(order, key);
      marks := marks + [key];
      assert marks[..|marks| - 1] == old(marks);
      if key in keys {
        MoveToBack(key);
      } else {
        Insert(key);
      }
    }

    method IsTurnFinalized(turn: string, session: Peers.Option<string>) returns (seen: bool)
      requires Valid()
      ensures seen <==> TurnKey(session, turn) in marks && |Later(marks, TurnKey(session, turn))| < 4096
    {
      RememberedExactlyWhen(marks, TurnKey(session, turn));
      seen := TurnKey(session, turn) in keys;
    }
  }

  lemma {:induction false} RemoveAt(q: seq<string>, i: nat)
    requires Distinct(q) && i < |q|
    ensures Without(q, q[i]) == q[..i] + q[i + 1..]
  {
    var last, init := q[|q| - 1], q[..|q| - 1];
    if i < |q| - 1 {
      RemoveAt(init, i);
      assert init[i + 1..] + [last] == q[i + 1..];
    } else {
      WithoutFacts(init, last);
    }
  }
}
