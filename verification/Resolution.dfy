/** Addressing strings to peers, and circle access (daemon-go/peer/registry_read.go, registry_access.go). */
module Resolution {
  import opened Fsm
  import opened Peers

  datatype Resolution = Found(id: PeerId) | NotFound | Ambiguous

  /** Tie-breaking order: connected, then pane-owning, then most recently seen. */
  datatype Rank = Rank(connected: bool, paned: bool, lastSeen: Time)

  predicate Greater(a: Rank, b: Rank) {
    if a.connected != b.connected then a.connected
    else if a.paned != b.paned then a.paned
    else a.lastSeen > b.lastSeen
  }

  function RankOf(p: Peer, connected: set<PeerId>): Rank {
    Rank(p.id in connected, Paned(p), GetOr(p.lastSeen, 0))
  }

  function Named(peers: map<PeerId, Record>, name: string): set<PeerId> {
    set id | id in peers && peers[id].peer.name == name
  }

  function InCircle(peers: map<PeerId, Record>, ids: set<PeerId>, circle: string): set<PeerId>
    requires ids <= peers.Keys
  {
    set id | id in ids && peers[id].peer.circle == circle
  }

  /** The non-offline ones, or all of them when every one is offline. */
  function Viable(peers: map<PeerId, Record>, ids: set<PeerId>): set<PeerId>
    requires ids <= peers.Keys
  {
    var active := set id | id in ids && peers[id].peer.status != StatusOffline;
    if active == {} then ids else active
  }

  function PaneOwners(peers: map<PeerId, Record>, ids: set<PeerId>): set<PeerId>
    requires ids <= peers.Keys
  {
    set id | id in ids && Paned(peers[id].peer)
  }

  ghost predicate Maximal(peers: map<PeerId, Record>, connected: set<PeerId>, ids: set<PeerId>, id: PeerId)
    requires ids <= peers.Keys
  {
    id in ids &&
    forall o :: o in ids ==> !Greater(RankOf(peers[o].peer, connected), RankOf(peers[id].peer, connected))
  }

  /** `r` is an answer resolvePeerLocked may give, for some order of its map iterations. */
  ghost predicate Resolves(peers: map<PeerId, Record>, connected: set<PeerId>, ident: string,
                           circle: Option<string>, r: Resolution)
  {
    if ident in peers then r == Found(ident)
    else
      var all := Named(peers, ident);
      if all == {} then r == NotFound
      else if circle.Some? && InCircle(peers, all, circle.value) == {} then
        if exists id :: all == {id} && BypassesCircles(peers[id].peer.role) then r.Found? && all == {r.id}
        else r == NotFound
      else
        var matches := if circle.Some? then InCircle(peers, all, circle.value) else all;
        var candidates := Viable(peers, matches);
        if circle.None? && (forall id :: candidates != {id}) then
          if exists id :: PaneOwners(peers, candidates) == {id}
          then r.Found? && PaneOwners(peers, candidates) == {r.id}
          else r == Ambiguous
        else
          r.Found? && Maximal(peers, connected, candidates, r.id)
  }

  /** Unscoped resolution does not depend on iteration order, nor on which peers are connected. */
  lemma UnscopedIsDeterministic(peers: map<PeerId, Record>, connected: set<PeerId>, connected': set<PeerId>,
                                ident: string, r: Resolution, r': Resolution)
    requires Resolves(peers, connected, ident, None, r)
    requires Resolves(peers, connected', ident, None, r')
    ensures r == r'
  {
    var all := Named(peers, ident);
    var candidates := Viable(peers, all);
    if ident !in peers && all != {} {
      if id :| candidates == {id} {
        assert r.id in candidates && r'.id in candidates;
      } else if id :| PaneOwners(peers, candidates) == {id} {
        assert r.id in PaneOwners(peers, candidates) && r'.id in PaneOwners(peers, candidates);
      }
    }
  }

  /** By name and unscoped, a peer is returned exactly when it is the sole viable holder of the name
      or the sole viable holder that owns a pane. */
  lemma UnscopedFoundExactlyWhen(peers: map<PeerId, Record>, connected: set<PeerId>, ident: string,
                                 r: Resolution, id: PeerId)
    requires ident !in peers
    requires Resolves(peers, connected, ident, None, r)
    ensures r == Found(id) <==>
            var candidates := Viable(peers, Named(peers, ident));
            candidates == {id} || PaneOwners(peers, candidates) == {id}
  {
    var all := Named(peers, ident);
    var candidates := Viable(peers, all);
    if candidates == {id} || PaneOwners(peers, candidates) == {id} {
      assert id in PaneOwners(peers, candidates) || id in candidates;
      if one :| candidates == {one} {
        assert id in candidates && r.id in candidates;
      }
    } else if one :| candidates == {one} {
      assert r.id in candidates;
    }
  }

  /** Scoped to a circle, a name never resolves to an ordinary agent of another circle. */
  lemma ScopedStaysInCircle(peers: map<PeerId, Record>, connected: set<PeerId>, ident: string, circle: string,
                            r: Resolution)
    requires ident !in peers
    requires Resolves(peers, connected, ident, Some(circle), r)
    ensures r != Ambiguous
    ensures r.Found? ==> r.id in peers && peers[r.id].peer.name == ident &&
                         (peers[r.id].peer.circle == circle ||
                          (BypassesCircles(peers[r.id].peer.role) && Named(peers, ident) == {r.id}))
    ensures InCircle(peers, Named(peers, ident), circle) != {} ==>
              r.Found? && peers[r.id].peer.circle == circle
  {
    var all := Named(peers, ident);
    if all != {} && InCircle(peers, all, circle) == {} && r.Found? {
      assert r.id in all;
    }
  }

  /** An answer exists for every state and every request. */
  lemma ResolutionIsTotal(peers: map<PeerId, Record>, connected: set<PeerId>, ident: string, circle: Option<string>)
    returns (r: Resolution)
    ensures Resolves(peers, connected, ident, circle, r)
  {
    var all := Named(peers, ident);
    if ident in peers {
      r := Found(ident);
    } else if all == {} {
      r := NotFound;
    } else if circle.Some? && InCircle(peers, all, circle.value) == {} {
      if id :| all == {id} && BypassesCircles(peers[id].peer.role) {
        r := Found(id);
      } else {
        r := NotFound;
      }
    } else {
      var matches := if circle.Some? then InCircle(peers, all, circle.value) else all;
      var candidates := Viable(peers, matches);
      var best := MaximalExists(peers, connected, candidates);
      if circle.None? && (forall id :: candidates != {id}) {
        if id :| PaneOwners(peers, candidates) == {id} {
          r := Found(id);
        } else {
          r := Ambiguous;
        }
      } else {
        r := Found(best);
      }
    }
  }

  lemma {:induction false} MaximalExists(peers: map<PeerId, Record>, connected: set<PeerId>, ids: set<PeerId>)
    returns (best: PeerId)
    requires ids <= peers.Keys && ids != {}
    ensures Maximal(peers, connected, ids, best)
    decreases ids
  {
    var id :| id in ids;
    best := id;
    if ids - {id} != {} {
      var other := MaximalExists(peers, connected, ids - {id});
      if !Greater(RankOf(peers[id].peer, connected), RankOf(peers[other].peer, connected)) {
        best := other;
      }
    }
    forall o | o in ids
      ensures !Greater(RankOf(peers[o].peer, connected), RankOf(peers[best].peer, connected))
    {
      assert o == id || o in ids - {id};
    }
  }

  // ---------------------------------------------------------------------------
  // Circle access
  // ---------------------------------------------------------------------------

  datatype Access = Granted(sender: Option<PeerId>, target: PeerId) | Denied(refused: PeerId) | UnknownTarget | AmbiguousTarget

  /** checkCircleAccess on two resolved peers. */
  predicate CirclesPermit(sender: Option<Peer>, target: Peer, bypass: bool) {
    bypass || sender.None? ||
    BypassesCircles(sender.value.role) || BypassesCircles(target.role) || sender.value.circle == target.circle
  }

  /** The sender CheckAccess settles on: scoped to the target's circle first, then unscoped, else nobody. */
  ghost predicate SenderResolves(peers: map<PeerId, Record>, connected: set<PeerId>, sender: string,
                                 targetCircle: string, from: Option<PeerId>)
  {
    exists scoped :: Resolves(peers, connected, sender, Some(targetCircle), scoped) &&
      if scoped.Found? then from == Some(scoped.id)
      else exists r :: Resolves(peers, connected, sender, None, r) &&
                       from == if r.Found? then Some(r.id) else None
  }

  ghost predicate AccessDecided(peers: map<PeerId, Record>, connected: set<PeerId>, sender: string, target: string,
                                bypass: bool, circle: Option<string>, a: Access)
  {
    exists t ::
      && Resolves(peers, connected, target, circle, t)
      && (t.Ambiguous? ==> a == AmbiguousTarget)
      && (t.NotFound? ==> a == UnknownTarget)
      && (t.Found? ==> t.id in peers && exists from ::
            && SenderResolves(peers, connected, sender, peers[t.id].peer.circle, from)
            && AccessBetween(peers, from, t.id, bypass, a))
  }

  ghost predicate AccessBetween(peers: map<PeerId, Record>, from: Option<PeerId>, to: PeerId, bypass: bool, a: Access)
    requires to in peers
  {
    (from.Some? ==> from.value in peers) &&
    a == if CirclesPermit(if from.Some? then Some(peers[from.value].peer) else None, peers[to].peer, bypass)
         then Granted(from, to) else Denied(from.value)
  }

  /** A sender addressed by name is refused only when it has no namesake in the target's circle;
      in particular a peer of the target's own circle is never refused. */
  lemma DeniedMeansOutsider(peers: map<PeerId, Record>, connected: set<PeerId>, sender: string, target: string,
                            bypass: bool, circle: Option<string>, a: Access)
    requires AccessDecided(peers, connected, sender, target, bypass, circle, a)
    requires a.Denied?
    ensures !bypass && a.refused in peers && !BypassesCircles(peers[a.refused].peer.role)
    ensures exists to :: Resolves(peers, connected, target, circle, Found(to)) && to in peers
                         && !BypassesCircles(peers[to].peer.role)
                         && peers[a.refused].peer.circle != peers[to].peer.circle
                         && (sender in peers || InCircle(peers, Named(peers, sender), peers[to].peer.circle) == {})
  {
    var t, from :| Resolves(peers, connected, target, circle, t) && t.Found? && t.id in peers
      && SenderResolves(peers, connected, sender, peers[t.id].peer.circle, from)
      && AccessBetween(peers, from, t.id, bypass, a);
    var home := peers[t.id].peer.circle;
    var scoped :| Resolves(peers, connected, sender, Some(home), scoped) &&
      if scoped.Found? then a.refused == scoped.id
      else exists r :: Resolves(peers, connected, sender, None, r) && r.Found? && a.refused == r.id;
    if sender !in peers {
      ScopedStaysInCircle(peers, connected, sender, home, scoped);
    }
  }

  /** The ways a sender can be known: by id, or by a name without namesake in the target's circle that is unscoped
      the sole viable holder's, or the sole viable pane owner's. */
  predicate KnownOutside(peers: map<PeerId, Record>, sender: string, home: string, from: PeerId) {
    if sender in peers then from == sender
    else
      InCircle(peers, Named(peers, sender), home) == {} &&
      var candidates := Viable(peers, Named(peers, sender));
      candidates == {from} || PaneOwners(peers, candidates) == {from}
  }

  /** Access is refused to `from` in some order of the map iterations if and only if the call does not bypass circles,
      the sender is `from`, known outside the circle of some target the call may mean, and both are ordinary peers of
      different circles. */
  lemma DeniedExactlyWhen(peers: map<PeerId, Record>, connected: set<PeerId>, sender: string, target: string,
                          bypass: bool, circle: Option<string>, from: PeerId)
    ensures AccessDecided(peers, connected, sender, target, bypass, circle, Denied(from)) <==>
              && !bypass && from in peers && !BypassesCircles(peers[from].peer.role)
              && exists to :: RefusesTo(peers, connected, sender, target, circle, from, to)
  {
    if AccessDecided(peers, connected, sender, target, bypass, circle, Denied(from)) {
      DeniedIsKnownOutside(peers, connected, sender, target, bypass, circle, from);
    }
    if to :| !bypass && from in peers && !BypassesCircles(peers[from].peer.role)
             && RefusesTo(peers, connected, sender, target, circle, from, to) {
      SenderIsKnown(peers, connected, sender, peers[to].peer.circle, from);
      assert AccessBetween(peers, Some(from), to, bypass, Denied(from));
    }
  }

  /** An ordinary target `to` of another circle than the ordinary sender's. */
  ghost predicate RefusesTo(peers: map<PeerId, Record>, connected: set<PeerId>, sender: string, target: string,
                            circle: Option<string>, from: PeerId, to: PeerId)
  {
    && Resolves(peers, connected, target, circle, Found(to))
    && to in peers && from in peers && !BypassesCircles(peers[to].peer.role)
    && peers[from].peer.circle != peers[to].peer.circle
    && KnownOutside(peers, sender, peers[to].peer.circle, from)
  }

  lemma DeniedIsKnownOutside(peers: map<PeerId, Record>, connected: set<PeerId>, sender: string, target: string,
                             bypass: bool, circle: Option<string>, from: PeerId)
    requires AccessDecided(peers, connected, sender, target, bypass, circle, Denied(from))
    ensures !bypass && from in peers && !BypassesCircles(peers[from].peer.role)
    ensures exists to :: RefusesTo(peers, connected, sender, target, circle, from, to)
  {
    hide Resolves, InCircle, Viable, PaneOwners, Named;
    var t, f :| Resolves(peers, connected, target, circle, t) && t.Found? && t.id in peers
      && SenderResolves(peers, connected, sender, peers[t.id].peer.circle, f)
      && AccessBetween(peers, f, t.id, bypass, Denied(from));
    SenderIsOutside(peers, connected, sender, peers[t.id].peer.circle, from);
    assert RefusesTo(peers, connected, sender, target, circle, from, t.id);
  }

  lemma SenderIsOutside(peers: map<PeerId, Record>, connected: set<PeerId>, sender: string, home: string, from: PeerId)
    requires from in peers && SenderResolves(peers, connected, sender, home, Some(from))
    requires !BypassesCircles(peers[from].peer.role) && peers[from].peer.circle != home
    ensures KnownOutside(peers, sender, home, from)
  {
    var scoped :| Resolves(peers, connected, sender, Some(home), scoped) &&
      if scoped.Found? then from == scoped.id
      else exists r :: Resolves(peers, connected, sender, None, r) && r == Found(from);
    if sender !in peers {
      ScopedStaysInCircle(peers, connected, sender, home, scoped);
      UnscopedFoundExactlyWhen(peers, connected, sender, Found(from), from);
    }
  }

  lemma SenderIsKnown(peers: map<PeerId, Record>, connected: set<PeerId>, sender: string, home: string, from: PeerId)
    requires from in peers && KnownOutside(peers, sender, home, from)
    requires !BypassesCircles(peers[from].peer.role) && peers[from].peer.circle != home
    ensures SenderResolves(peers, connected, sender, home, Some(from))
  {
    var scoped := ResolutionIsTotal(peers, connected, sender, Some(home));
    var r := ResolutionIsTotal(peers, connected, sender, None);
    if sender !in peers {
      UnscopedFoundExactlyWhen(peers, connected, sender, r, from);
      ScopedStaysInCircle(peers, connected, sender, home, scoped);
    }
    assert Resolves(peers, connected, sender, Some(home), scoped);
  }
}
