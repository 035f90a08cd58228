/** Strike counting for connected panes that report themselves gone (demoteUnsafeConnectedPeers in
    daemon-go/peer/reconcile.go). */
module PaneStrikes {
  import Peers

  const STRIKE_LIMIT: nat := 3

  /** What a pass learns about one peer: the ping failed, the pane is alive, the probe was inconclusive, the pane is
      gone; or the peer was no longer registered and its count was collected. */
  datatype Verdict = PingFailed | PaneAlive | Inconclusive | PaneGone | Collected

  function Next(strikes: nat, v: Verdict): (nat, bool) {
    match v
    case PaneAlive => (0, false)
    case Collected => (0, false)
    case PaneGone => if strikes + 1 < STRIKE_LIMIT then (strikes + 1, false) else (0, true)
    case _ => (strikes, false)
  }

  /** The count after a history of verdicts. */
  function Strikes(history: seq<Verdict>): nat {
    if history == [] then 0 else Next(Strikes(history[..|history| - 1]), history[|history| - 1]).0
  }

  /** Whether the last verdict of the history retires the peer. */
  predicate Retires(history: seq<Verdict>) {
    history != [] && Next(Strikes(history[..|history| - 1]), history[|history| - 1]).1
  }

  /** How often the pane was reported gone since it was last known alive or the count was collected. */
  function GoneSinceAlive(history: seq<Verdict>): nat {
    if history == [] then 0
    else
      var last, before := history[|history| - 1], GoneSinceAlive(history[..|history| - 1]);
      if last == PaneAlive || last == Collected then 0
      else if last == PaneGone then before + 1
      else before
  }

  /** A peer is retired exactly on every third report of a gone pane with no sign of life in between; failed and
      inconclusive probes count neither way. */
  lemma {:induction false} RetiresOnEveryThirdStrike(history: seq<Verdict>)
    ensures Strikes(history) == GoneSinceAlive(history) % 3
    ensures Retires(history) <==>
              history != [] && history[|history| - 1] == PaneGone && GoneSinceAlive(history) % 3 == 0
  {
    if history != [] {
      RetiresOnEveryThirdStrike(history[..|history| - 1]);
    }
  }

  class StrikeBoard {
    var paneStrikes: map<Peers.PeerId, nat>

    constructor ()
      ensures paneStrikes == map[]
    {
      paneStrikes := map[];
    }

    ghost function CountOf(id: Peers.PeerId): nat
      reads this
    {
      if id in paneStrikes then paneStrikes[id] else 0
    }

    /** Drop the counts of peers no longer registered. */
    method Collect(registered: set<Peers.PeerId>)
      modifies this
      ensures paneStrikes == old(paneStrikes) - (old(paneStrikes).Keys - registered)
    {
      var todo := paneStrikes.Keys;
      while todo != {}
        invariant todo <= old(paneStrikes).Keys
        invariant paneStrikes == old(paneStrikes) - (old(paneStrikes).Keys - registered - todo)
        decreases todo
      {
        var id :| id in todo;
        todo := todo - {id};
        if id !in registered {
          paneStrikes := paneStrikes - {id};
        }
        assert old(paneStrikes).Keys - registered - todo ==
               (old(paneStrikes).Keys - registered - (todo + {id})) + if id !in registered then {id} else {};
      }
    }

    /** One pinged peer; true means it is to be retired. */
    method Judge(id: Peers.PeerId, v: Verdict) returns (retire: bool)
      requires v != Collected
      modifies this
      ensures CountOf(id) == Next(old(CountOf(id)), v).0 && retire == Next(old(CountOf(id)), v).1
      ensures forall o :: o != id ==> CountOf(o) == old(CountOf(o))
    {
      match v {
        case PaneAlive =>
          paneStrikes := paneStrikes - {id};
          return false;
        case PaneGone =>
          var strikes := (if id in paneStrikes then paneStrikes[id] else 0) + 1;
          paneStrikes := paneStrikes[id := strikes];
          if strikes < STRIKE_LIMIT {
            return false;
          }
          paneStrikes := paneStrikes - {id};
          return true;
        case _ =>
          return false;
      }
    }
  }
}
