/** What addressing a peer comes to, told in the fields of the records (daemon-go/peer/registry_read.go,
    daemon-go/peer/registry_access.go). */
module AddressingLaws {
  import opened Fsm
  import opened Peers
  import opened Resolution

  /** An id is its own address, whatever the circle; a name nobody bears addresses nobody. */
  lemma IdsComeFirst(peers: map<PeerId, Record>, connected: set<PeerId>, ident: string, circle: Option<string>, r: Resolution)
    requires Resolves(peers, connected, ident, circle, r)
    ensures ident in peers ==> r == Found(ident)
    ensures ident !in peers && (forall o :: o in peers ==> peers[o].peer.name != ident) ==> r == NotFound
    ensures ident !in peers && r.Found? ==> r.id in peers && peers[r.id].peer.name == ident
  {
    if ident !in peers && r.Found? {
      NamedHolds(peers, connected, ident, circle, r);
    }
  }

  lemma NamedHolds(peers: map<PeerId, Record>, connected: set<PeerId>, ident: string, circle: Option<string>, r: Resolution)
    requires Resolves(peers, connected, ident, circle, r) && ident !in peers && r.Found?
    ensures r.id in Named(peers, ident)
  {
    hide Maximal;
    var all := Named(peers, ident);
    if circle.Some? {
      ScopedStaysInCircle(peers, connected, ident, circle.value, r);
    } else {
      UnscopedFoundExactlyWhen(peers, connected, ident, r, r.id);
      var candidates := Viable(peers, all);
      assert candidates <= all && PaneOwners(peers, candidates) <= candidates;
      assert r.id in PaneOwners(peers, candidates) || r.id in candidates;
    }
  }

  /** Scoped to a circle with a holder of the name, the answer is such a holder, offline only if all of them are, and
      against every other one that is not offline it is connected, or as connected and the one with a pane, or alike in
      both and seen no earlier. */
  lemma ScopedAnswerIsBest(peers: map<PeerId, Record>, connected: set<PeerId>, ident: string, circle: string,
                           id: PeerId, o: PeerId)
    requires Resolves(peers, connected, ident, Some(circle), Found(id)) && ident !in peers
    requires forall k :: k in peers ==> peers[k].peer.id == k
    requires id in peers && peers[id].peer.circle == circle
    requires o in peers && peers[o].peer.name == ident && peers[o].peer.circle == circle
    ensures peers[id].peer.name == ident
    ensures peers[id].peer.status == StatusOffline ==> peers[o].peer.status == StatusOffline
    ensures
      var p, q := peers[id].peer, peers[o].peer;
      var paneP, paneQ := p.pane.Some? && p.pane.value != "", q.pane.Some? && q.pane.value != "";
      var seenP, seenQ := if p.lastSeen.Some? then p.lastSeen.value else 0, if q.lastSeen.Some? then q.lastSeen.value else 0;
      q.status != StatusOffline || p.status == StatusOffline ==>
        && (o in connected ==> id in connected)
        && ((o in connected <==> id in connected) && paneQ ==> paneP)
        && ((o in connected <==> id in connected) && (paneQ <==> paneP) ==> seenQ <= seenP)
  {
    var all := Named(peers, ident);
    var inside := InCircle(peers, all, circle);
    var active := set k | k in inside && peers[k].peer.status != StatusOffline;
    assert o in inside && (peers[o].peer.status != StatusOffline ==> o in active);
    assert Maximal(peers, connected, Viable(peers, inside), id);
  }

  /** A name without a holder in the asked circle is found elsewhere if and only if its one holder anywhere is a
      service, an orchestrator or a human. */
  lemma FoundElsewhereExactlyWhen(peers: map<PeerId, Record>, connected: set<PeerId>, ident: string, circle: string,
                                  r: Resolution, id: PeerId)
    requires Resolves(peers, connected, ident, Some(circle), r) && ident !in peers
    requires forall o :: o in peers && peers[o].peer.name == ident ==> peers[o].peer.circle != circle
    ensures r == Found(id) <==>
              && id in peers && peers[id].peer.name == ident
              && (forall o :: o in peers && peers[o].peer.name == ident ==> o == id)
              && peers[id].peer.role in {RoleService, RoleOrchestrator, RoleHuman}
    ensures r.Found? || r.NotFound?
  {
    var all := Named(peers, ident);
    assert InCircle(peers, all, circle) == {};
    if r.Found? {
      assert all == {r.id} && r.id in all;
      forall o | o in peers && peers[o].peer.name == ident ensures o == r.id {
        assert o in all;
      }
      assert exists one :: all == {one} && BypassesCircles(peers[one].peer.role);
    }
    if id in all && (forall o :: o in all ==> o == id) && peers[id].peer.role in {RoleService, RoleOrchestrator, RoleHuman} {
      assert all == {id} && BypassesCircles(peers[id].peer.role);
    }
    assert id in all <==> id in peers && peers[id].peer.name == ident;
  }

  /** Unscoped and by name: the answer is the only holder that is not offline, or the only one at all when every one is,
      or else the only one of those with a pane; when there are holders but no such one the name is ambiguous. */
  lemma UnscopedAnswer(peers: map<PeerId, Record>, connected: set<PeerId>, ident: string, r: Resolution, id: PeerId)
    requires Resolves(peers, connected, ident, None, r) && ident !in peers
    ensures
      var allOffline := forall o :: o in peers && peers[o].peer.name == ident ==> peers[o].peer.status == StatusOffline;
      var rivals := set o | o in peers && peers[o].peer.name == ident && (peers[o].peer.status != StatusOffline || allOffline);
      && (r == Found(id) <==>
            && id in rivals
            && (|| rivals == {id}
                || (peers[id].peer.pane.Some? && peers[id].peer.pane.value != "" &&
                    forall o :: o in rivals && peers[o].peer.pane.Some? && peers[o].peer.pane.value != "" ==> o == id)))
      && (r == NotFound <==> rivals == {})
  {
    hide Maximal;
    UnscopedFoundExactlyWhen(peers, connected, ident, r, id);
    var all := Named(peers, ident);
    var candidates := Viable(peers, all);
    var allOffline := forall o :: o in peers && peers[o].peer.name == ident ==> peers[o].peer.status == StatusOffline;
    var rivals := set o | o in peers && peers[o].peer.name == ident && (peers[o].peer.status != StatusOffline || allOffline);
    ViableAreRivals(peers, ident);
    assert candidates == rivals;
    var paned := PaneOwners(peers, candidates);
    if paned == {id} {
      assert id in paned;
      forall o | o in rivals && peers[o].peer.pane.Some? && peers[o].peer.pane.value != "" ensures o == id {
        assert o in paned;
      }
    }
    if id in paned && (forall o :: o in paned ==> o == id) {
      assert paned == {id};
    }
  }

  lemma ViableAreRivals(peers: map<PeerId, Record>, ident: string)
    ensures
      var allOffline := forall o :: o in peers && peers[o].peer.name == ident ==> peers[o].peer.status == StatusOffline;
      Viable(peers, Named(peers, ident)) ==
        set o | o in peers && peers[o].peer.name == ident && (peers[o].peer.status != StatusOffline || allOffline)
  {
    var all := Named(peers, ident);
    var active := set o | o in all && peers[o].peer.status != StatusOffline;
    forall o | o in peers && peers[o].peer.name == ident ensures o in all && (peers[o].peer.status != StatusOffline ==> o in active) {
    }
    if active != {} {
      var o :| o in active;
      assert peers[o].peer.name == ident;
    }
  }

  /** Between two peers given by id: without bypass and across circles, access is refused if and only if neither is a
      service, an orchestrator or a human; in every other case it is granted, from the one to the other. */
  lemma AccessBetweenIds(peers: map<PeerId, Record>, connected: set<PeerId>, sender: PeerId, target: PeerId, bypass: bool,
                         circle: Option<string>, a: Access)
    requires sender in peers && target in peers
    requires AccessDecided(peers, connected, sender, target, bypass, circle, a)
    ensures
      var crossing := {RoleService, RoleOrchestrator, RoleHuman};
      a == if !bypass && peers[sender].peer.circle != peers[target].peer.circle
              && peers[sender].peer.role !in crossing && peers[target].peer.role !in crossing
           then Denied(sender) else Granted(Some(sender), target)
  {
    var t :| Resolves(peers, connected, target, circle, t) && t.Found? && t.id in peers && exists from ::
      SenderResolves(peers, connected, sender, peers[t.id].peer.circle, from) && AccessBetween(peers, from, t.id, bypass, a);
    assert t.id == target;
  }

  /** A sender that is neither an id nor a name anyone bears may reach every target there is, and a target that resolves to
      nobody, or to several, is reported as such. */
  lemma StrangersAreLetThrough(peers: map<PeerId, Record>, connected: set<PeerId>, sender: string, target: string, bypass: bool,
                               circle: Option<string>, a: Access)
    requires sender !in peers && forall o :: o in peers ==> peers[o].peer.name != sender
    requires AccessDecided(peers, connected, sender, target, bypass, circle, a)
    ensures !a.Denied? && (a.Granted? ==> a.sender == None)
    ensures target in peers ==> a == Granted(None, target)
    ensures a.UnknownTarget? ==> Resolves(peers, connected, target, circle, NotFound)
    ensures a.AmbiguousTarget? ==> Resolves(peers, connected, target, circle, Ambiguous)
  {
    hide Resolves;
    var t :| Resolves(peers, connected, target, circle, t)
      && (t.Ambiguous? ==> a == AmbiguousTarget) && (t.NotFound? ==> a == UnknownTarget)
      && (t.Found? ==> t.id in peers && exists from ::
            SenderResolves(peers, connected, sender, peers[t.id].peer.circle, from) && AccessBetween(peers, from, t.id, bypass, a));
    IdsComeFirst(peers, connected, target, circle, t);
    if t.Found? {
      var from :| SenderResolves(peers, connected, sender, peers[t.id].peer.circle, from) && AccessBetween(peers, from, t.id, bypass, a);
      StrangerIsNobody(peers, connected, sender, peers[t.id].peer.circle, from);
    }
  }

  lemma StrangerIsNobody(peers: map<PeerId, Record>, connected: set<PeerId>, sender: string, home: string, from: Option<PeerId>)
    requires sender !in peers && forall o :: o in peers ==> peers[o].peer.name != sender
    requires SenderResolves(peers, connected, sender, home, from)
    ensures from == None
  {
    assert Named(peers, sender) == {};
  }
}
