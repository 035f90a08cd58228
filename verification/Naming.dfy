/** Display-name derivation with the suffix search (buildDisplayName in daemon-go/peer/registry.go). */
module Naming {
  import opened Fsm
  import opened Peers
  import opened Collections

  /** What a name is built from; `folder` is the sanitised last component of the path. */
  datatype NameSeed = NameSeed(preferred: string, folder: string, backend: string)

  function Digit(d: nat): char
    requires d < 10
  {
    "0123456789"[d]
  }

  function Decimal(n: nat): (s: string)
    ensures s != ""
  {
    if n < 10 then [Digit(n)] else Decimal(n / 10) + [Digit(n % 10)]
  }

  lemma {:induction false} DecimalInjective(m: nat, n: nat)
    requires Decimal(m) == Decimal(n)
    ensures m == n
  {
    var a, b := Decimal(m), Decimal(n);
    assert a[|a| - 1] == Digit(m % 10) && b[|b| - 1] == Digit(n % 10);
    if m >= 10 && n >= 10 {
      assert a[..|a| - 1] == Decimal(m / 10) && b[..|b| - 1] == Decimal(n / 10);
      DecimalInjective(m / 10, n / 10);
    }
  }

  /** The number a string of decimal digits stands for. */
  function Reading(s: string): int {
    if s == "" then 0 else 10 * Reading(s[..|s| - 1]) + (s[|s| - 1] as int - '0' as int)
  }

  lemma {:induction false} DecimalReadsBack(n: nat)
    ensures Reading(Decimal(n)) == n
  {
    if n >= 10 {
      assert Decimal(n)[..|Decimal(n)| - 1] == Decimal(n / 10);
      DecimalReadsBack(n / 10);
    } else {
      assert Decimal(n)[..0] == "";
    }
  }

  function Base(seed: NameSeed): string {
    if seed.preferred != "" then seed.preferred else seed.folder + "-" + seed.backend
  }

  /** The k-th name tried: the base first, then suffix k. */
  function Candidate(seed: NameSeed, k: nat): string
    requires k >= 1
  {
    if k == 1 then Base(seed)
    else if seed.preferred != "" then seed.preferred + "-" + Decimal(k)
    else seed.folder + "-" + Decimal(k) + "-" + seed.backend
  }

  lemma CandidatesDistinct(seed: NameSeed, j: nat, k: nat)
    requires 1 <= j < k
    ensures Candidate(seed, j) != Candidate(seed, k)
  {
    if j == 1 {
      assert |Candidate(seed, 1)| < |Candidate(seed, k)|;
    } else if Candidate(seed, j) == Candidate(seed, k) {
      var a, b := Candidate(seed, j), Candidate(seed, k);
      var prefix := |if seed.preferred != "" then seed.preferred else seed.folder| + 1;
      var suffix := if seed.preferred != "" then 0 else |seed.backend| + 1;
      assert a[prefix..|a| - suffix] == Decimal(j);
      assert b[prefix..|b| - suffix] == Decimal(k);
      DecimalInjective(j, k);
    }
  }

  predicate Blocks(r: Record, name: string, circle: string) {
    r.peer.name == name && r.peer.circle == circle
  }

  /** A blocker that does not push the search on: a dead holder or the same runtime session. */
  predicate Passable(r: Record, session: string) {
    r.state == Offline || (session != "" && RuntimeSession(r.peer.metadata) == session)
  }

  /** The live peer `id` is a reason to reject candidate k. */
  predicate Obstructs(peers: map<PeerId, Record>, seed: NameSeed, circle: string, session: string, k: nat, id: PeerId)
    requires k >= 1
  {
    id in peers && Blocks(peers[id], Candidate(seed, k), circle) && !Passable(peers[id], session)
  }

  /** Candidate k is rejected because some distinct live peer in the circle holds it. */
  ghost predicate Rejected(peers: map<PeerId, Record>, seed: NameSeed, circle: string, session: string, k: nat) {
    k >= 1 && exists id :: Obstructs(peers, seed, circle, session, k, id)
  }

  /** Candidate k is accepted: nobody in the circle holds it, or the holder inspected is passable. */
  ghost predicate Accepted(peers: map<PeerId, Record>, seed: NameSeed, circle: string, session: string, k: nat) {
    k >= 1 &&
    ((forall id :: id in peers ==> !Blocks(peers[id], Candidate(seed, k), circle)) ||
     (exists id :: id in peers && Blocks(peers[id], Candidate(seed, k), circle) && Passable(peers[id], session)))
  }

  /** `name` is one the search may return: the first accepted candidate for some choice of blockers. */
  ghost predicate NameChosen(peers: map<PeerId, Record>, seed: NameSeed, circle: string, session: string, name: string) {
    exists k: nat ::
      && 1 <= k <= |peers| + 1
      && name == Candidate(seed, k)
      && Accepted(peers, seed, circle, session, k)
      && forall j: nat :: 1 <= j < k ==> Rejected(peers, seed, circle, session, j)
  }

  /** `blockers[i]` is the live holder on account of which candidate i + 1 was rejected. */
  ghost predicate Witnesses(peers: map<PeerId, Record>, seed: NameSeed, circle: string, session: string,
                            blockers: seq<PeerId>)
  {
    forall i :: 0 <= i < |blockers| ==> Obstructs(peers, seed, circle, session, i + 1, blockers[i])
  }

  /** No peer stands in the way of two candidates. */
  lemma BlockersDiffer(peers: map<PeerId, Record>, seed: NameSeed, circle: string, session: string,
                       j: nat, a: PeerId, k: nat, b: PeerId)
    requires 1 <= j < k && Obstructs(peers, seed, circle, session, j, a)
    ensures a in peers
    ensures Obstructs(peers, seed, circle, session, k, b) ==> a != b
  {
    hide Candidate, Passable;
    CandidatesDistinct(seed, j, k);
  }

  /** Candidates are distinct strings, so their blockers are distinct peers: the search is bounded. */
  lemma {:induction false} RejectionsBounded(peers: map<PeerId, Record>, seed: NameSeed, circle: string,
                                             session: string, blockers: seq<PeerId>)
    requires Witnesses(peers, seed, circle, session, blockers)
    ensures |blockers| <= |peers|
  {
    var holders := Elements(blockers);
    hide Obstructs, Candidate;
    forall i, j | 0 <= i < j < |blockers| ensures blockers[i] != blockers[j] {
      BlockersDiffer(peers, seed, circle, session, i + 1, blockers[i], j + 1, blockers[j]);
    }
    forall id | id in holders ensures id in peers {
      var i :| 0 <= i < |blockers| && blockers[i] == id;
      BlockersDiffer(peers, seed, circle, session, i + 1, id, i + 2, "");
    }
    DistinctSize(blockers);
    SubsetSize(holders, peers.Keys);
  }

  method FindBlocker(peers: map<PeerId, Record>, name: string, circle: string) returns (blocker: Option<PeerId>)
    ensures blocker.Some? ==> blocker.value in peers && Blocks(peers[blocker.value], name, circle)
    ensures blocker.None? ==> forall id :: id in peers ==> !Blocks(peers[id], name, circle)
  {
    var todo := peers.Keys;
    while todo != {}
      invariant todo <= peers.Keys
      invariant forall id :: id in peers && id !in todo ==> !Blocks(peers[id], name, circle)
      decreases todo
    {
      var id :| id in todo;
      if Blocks(peers[id], name, circle) {
        return Some(id);
      }
      todo := todo - {id};
    }
    return None;
  }

  /** The search terminates, after at most one more candidate than there are peers. */
  method BuildDisplayName(peers: map<PeerId, Record>, seed: NameSeed, circle: string, session: string)
    returns (name: string)
    ensures NameChosen(peers, seed, circle, session, name)
  {
    var candidate := Base(seed);
    var suffix := 2;
    ghost var blockers: seq<PeerId> := [];
    while true
      invariant suffix == |blockers| + 2
      invariant candidate == Candidate(seed, suffix - 1)
      invariant Witnesses(peers, seed, circle, session, blockers)
      decreases |peers| - |blockers|
    {
      RejectionsBounded(peers, seed, circle, session, blockers);
      var blocker := FindBlocker(peers, candidate, circle);
      if blocker.None? || Passable(peers[blocker.value], session) {
        assert Accepted(peers, seed, circle, session, suffix - 1);
        WitnessesReject(peers, seed, circle, session, blockers);
        return candidate;
      }
      blockers := blockers + [blocker.value];
      RejectionsBounded(peers, seed, circle, session, blockers);
      candidate := if seed.preferred != "" then seed.preferred + "-" + Decimal(suffix)
                   else seed.folder + "-" + Decimal(suffix) + "-" + seed.backend;
      suffix := suffix + 1;
    }
  }

  lemma WitnessesReject(peers: map<PeerId, Record>, seed: NameSeed, circle: string, session: string,
                        blockers: seq<PeerId>)
    requires Witnesses(peers, seed, circle, session, blockers)
    ensures forall j: nat :: 1 <= j <= |blockers| ==> Rejected(peers, seed, circle, session, j)
  {
    forall j: nat | 1 <= j <= |blockers| ensures Rejected(peers, seed, circle, session, j) {
      assert Obstructs(peers, seed, circle, session, j, blockers[j - 1]);
    }
  }

  /** The search has an outcome in every state. */
  lemma SomeNameIsChosen(peers: map<PeerId, Record>, seed: NameSeed, circle: string, session: string)
    returns (name: string)
    ensures NameChosen(peers, seed, circle, session, name)
  {
    name := SearchFrom(peers, seed, circle, session, []);
  }

  lemma {:induction false} SearchFrom(peers: map<PeerId, Record>, seed: NameSeed, circle: string, session: string,
                                      blockers: seq<PeerId>)
    returns (name: string)
    requires Witnesses(peers, seed, circle, session, blockers)
    ensures NameChosen(peers, seed, circle, session, name)
    decreases |peers| - |blockers|
  {
    var k := |blockers| + 1;
    RejectionsBounded(peers, seed, circle, session, blockers);
    if Accepted(peers, seed, circle, session, k) {
      WitnessesReject(peers, seed, circle, session, blockers);
      name := Candidate(seed, k);
    } else {
      var id :| id in peers && Blocks(peers[id], Candidate(seed, k), circle);
      assert Obstructs(peers, seed, circle, session, k, id);
      RejectionsBounded(peers, seed, circle, session, blockers + [id]);
      name := SearchFrom(peers, seed, circle, session, blockers + [id]);
    }
  }

  /** While a circle's names have one holder each, the chosen name collides with no distinct live peer. */
  lemma ChosenNameIsFree(peers: map<PeerId, Record>, seed: NameSeed, circle: string, session: string, name: string)
    requires NameChosen(peers, seed, circle, session, name)
    requires forall a, b :: a in peers && b in peers && Blocks(peers[a], name, circle) && Blocks(peers[b], name, circle)
                            ==> a == b
    ensures forall id :: id in peers && Blocks(peers[id], name, circle) ==> Passable(peers[id], session)
  {
  }

  /** A live holder of another session: the name would collide with it. */
  predicate Collides(peers: map<PeerId, Record>, name: string, circle: string, session: string, id: PeerId) {
    id in peers && Blocks(peers[id], name, circle) && !Passable(peers[id], session)
  }

  /** The search may return a name that collides. */
  ghost predicate CanCollide(peers: map<PeerId, Record>, seed: NameSeed, circle: string, session: string) {
    exists name, id :: NameChosen(peers, seed, circle, session, name) && Collides(peers, name, circle, session, id)
  }

  /** A candidate with both a passable and a colliding holder, every earlier one having a colliding holder. */
  ghost predicate SharedCandidate(peers: map<PeerId, Record>, seed: NameSeed, circle: string, session: string, k: nat) {
    && Rejected(peers, seed, circle, session, k)
    && (exists id :: id in peers && Blocks(peers[id], Candidate(seed, k), circle) && Passable(peers[id], session))
    && forall j: nat :: 1 <= j < k ==> Rejected(peers, seed, circle, session, j)
  }

  /** Some order of the search returns a name held by a live peer of another session if and only if it can come to a
      candidate that such a peer shares with a dead holder or one of the same session. */
  lemma NameCollidesExactlyWhen(peers: map<PeerId, Record>, seed: NameSeed, circle: string, session: string)
    ensures CanCollide(peers, seed, circle, session) <==>
              exists k: nat :: SharedCandidate(peers, seed, circle, session, k)
  {
    if CanCollide(peers, seed, circle, session) {
      var name, id :| NameChosen(peers, seed, circle, session, name) && Collides(peers, name, circle, session, id);
      var k: nat :| 1 <= k <= |peers| + 1 && name == Candidate(seed, k) && Accepted(peers, seed, circle, session, k)
        && forall j: nat :: 1 <= j < k ==> Rejected(peers, seed, circle, session, j);
      assert Obstructs(peers, seed, circle, session, k, id);
      assert SharedCandidate(peers, seed, circle, session, k);
    }
    if k: nat :| SharedCandidate(peers, seed, circle, session, k) {
      var id :| Obstructs(peers, seed, circle, session, k, id);
      var blockers := RejectionWitnesses(peers, seed, circle, session, k - 1);
      RejectionsBounded(peers, seed, circle, session, blockers);
      assert NameChosen(peers, seed, circle, session, Candidate(seed, k));
      assert Collides(peers, Candidate(seed, k), circle, session, id);
    }
  }

  lemma {:induction false} RejectionWitnesses(peers: map<PeerId, Record>, seed: NameSeed, circle: string, session: string,
                                              n: nat)
    returns (blockers: seq<PeerId>)
    requires forall j: nat :: 1 <= j <= n ==> Rejected(peers, seed, circle, session, j)
    ensures |blockers| == n && Witnesses(peers, seed, circle, session, blockers)
  {
    if n == 0 {
      blockers := [];
    } else {
      var earlier := RejectionWitnesses(peers, seed, circle, session, n - 1);
      assert Rejected(peers, seed, circle, session, n);
      var id :| Obstructs(peers, seed, circle, session, n, id);
      blockers := earlier + [id];
    }
  }
}
