/**
 What the node handlers mean, in the terms of internal/app/coordinator_nodes.go: which nodes and
 which fields are stored, kept and shown. Nothing here is said through the functions that NodeTable
 computes with.
 */
module NodeMeaning {
  import opened Prelude
  import opened Topology
  import opened Candidates
  import opened NodeTable

  // ----- what a peer is shown -----

  /** A node of the requester's segment is shown as it is; of another node only the candidates are withheld. */
  ghost predicate ShownAs(requester: Node, n: Node, shown: Node) {
    if n.segment == requester.segment then shown == n
    else
      shown == n.(services := shown.services) && |shown.services| == |n.services| &&
      forall i :: 0 <= i < |n.services| ==> shown.services[i] == n.services[i].(candidates := [])
  }

  /** Exactly the other nodes of the requester's network, each once, by name, as they may be shown. */
  ghost predicate ShowsTo(nodes: map<string, Node>, id: string, peers: seq<Node>)
    requires id in nodes
  {
    && (forall i :: 0 <= i < |peers| ==> ListedAs(nodes, id, peers[i]))
    && (forall i, j :: 0 <= i < j < |peers| ==> peers[i].id != peers[j].id && !Less(peers[j].name, peers[i].name))
    && (forall peer :: peer in nodes && peer != id && nodes[peer].network == nodes[id].network ==>
          exists i :: 0 <= i < |peers| && peers[i].id == peer)
  }

  lemma ListingMeans(nodes: map<string, Node>, id: string, peers: seq<Node>)
    requires IdsOk(Table(nodes, 0)) && id in nodes && IsListing(peers, PeerView(nodes, id))
    ensures ShowsTo(nodes, id, peers)
  {
    forall i | 0 <= i < |peers| ensures ListedAs(nodes, id, peers[i]) {
      ListedMeans(nodes, id, peers, i);
    }
    ListedInOrder(nodes, id, peers);
    ListedAll(nodes, id, peers);
  }

  ghost predicate ListedAs(nodes: map<string, Node>, id: string, shown: Node)
    requires id in nodes
  {
    shown.id in nodes && shown.id != id && nodes[shown.id].network == nodes[id].network &&
    ShownAs(nodes[id], nodes[shown.id], shown)
  }

  lemma ListedMeans(nodes: map<string, Node>, id: string, peers: seq<Node>, i: nat)
    requires IdsOk(Table(nodes, 0)) && id in nodes && IsListing(peers, PeerView(nodes, id)) && i < |peers|
    ensures ListedAs(nodes, id, peers[i])
  {
    assert peers[i].id in PeerView(nodes, id) && peers[i] == PeerView(nodes, id)[peers[i].id];
  }

  lemma ListedInOrder(nodes: map<string, Node>, id: string, peers: seq<Node>)
    requires id in nodes && IsListing(peers, PeerView(nodes, id))
    ensures forall i, j :: 0 <= i < j < |peers| ==> peers[i].id != peers[j].id && !Less(peers[j].name, peers[i].name)
  {
    forall i, j | 0 <= i < j < |peers| ensures peers[i].id != peers[j].id && !Less(peers[j].name, peers[i].name) {
      assert Keys(peers, NameOf)[i] == peers[i].name && Keys(peers, NameOf)[j] == peers[j].name;
    }
  }

  lemma ListedAll(nodes: map<string, Node>, id: string, peers: seq<Node>)
    requires IdsOk(Table(nodes, 0)) && id in nodes && IsListing(peers, PeerView(nodes, id))
    ensures forall peer :: peer in nodes && peer != id && nodes[peer].network == nodes[id].network ==>
              exists i :: 0 <= i < |peers| && peers[i].id == peer
  {
    forall peer | peer in nodes && peer != id && nodes[peer].network == nodes[id].network
      ensures exists i :: 0 <= i < |peers| && peers[i].id == peer
    {
      var i :| 0 <= i < |peers| && peers[i] == PeerView(nodes, id)[peer];
      assert peers[i].id == peer;
    }
  }

  // ----- the same topology -----

  ghost predicate SameCandidates(a: seq<Candidate>, b: seq<Candidate>) {
    |a| == |b| && forall i :: 0 <= i < |a| ==> a[i].address == b[i].address
  }

  ghost predicate SameService(a: Service, b: Service) {
    a.nodeId == b.nodeId && a.name == b.name && a.segment == b.segment && a.uuid == b.uuid && a.pin == b.pin &&
    SameCandidates(a.candidates, b.candidates)
  }

  /** Equal in everything but LastSeen and the ends of candidate leases. */
  ghost predicate SameUpToLeases(a: Node, b: Node) {
    a.id == b.id && a.name == b.name && a.role == b.role && a.segment == b.segment && a.network == b.network &&
    a.identityKey == b.identityKey && a.relay == b.relay && a.upstream == b.upstream &&
    |a.services| == |b.services| && forall i :: 0 <= i < |a.services| ==> SameService(a.services[i], b.services[i])
  }

  lemma StripMeans(a: Node, b: Node)
    ensures Strip(a) == Strip(b) <==> SameUpToLeases(a, b)
  {
    if SameUpToLeases(a, b) {
      forall i | 0 <= i < |a.services| ensures StripService(a.services[i]) == StripService(b.services[i]) {
        assert SameService(a.services[i], b.services[i]);
        assert StripCandidates(a.services[i].candidates) == StripCandidates(b.services[i].candidates);
      }
      assert StripServices(a.services) == StripServices(b.services);
    }
    if Strip(a) == Strip(b) {
      forall i | 0 <= i < |a.services| ensures SameService(a.services[i], b.services[i]) {
        SameStripped(a.services[i], b.services[i], StripServices(a.services)[i], StripServices(b.services)[i]);
      }
    }
  }

  lemma SameStripped(a: Service, b: Service, c: Service, d: Service)
    requires c == StripService(a) && d == StripService(b) && c == d
    ensures SameService(a, b)
  {
    forall i | 0 <= i < |a.candidates| ensures a.candidates[i].address == b.candidates[i].address {
      assert c.candidates[i].address == d.candidates[i].address;
    }
  }

  // ----- the sweep -----

  /** What the sweep leaves of a node: its unexpired candidates and everything else. */
  ghost predicate Trimmed(n: Node, m: Node, now: Time) {
    m == n.(services := m.services) && |m.services| == |n.services| &&
    forall i :: 0 <= i < |n.services| ==>
      m.services[i] == n.services[i].(candidates := m.services[i].candidates) &&
      Unlapsed(n.services[i].candidates, m.services[i].candidates, now)
  }

  ghost predicate Unlapsed(before: seq<Candidate>, after: seq<Candidate>, now: Time) {
    && (forall c :: c in after <==> c in before && c.expiresAt > now)
    && ((forall c :: c in before ==> c.expiresAt > now) ==> after == before)
  }

  lemma {:induction false} UnexpiredMeans(candidates: seq<Candidate>, now: Time)
    ensures Unlapsed(candidates, Unexpired(candidates, now), now)
  {
    if candidates != [] {
      var front, last := candidates[..|candidates| - 1], candidates[|candidates| - 1];
      UnexpiredMeans(front, now);
      assert candidates == front + [last];
    }
  }

  /** A node goes exactly if it was last seen more than two minutes ago; of the others only expired candidates go. */
  lemma SweepMeans(t: Table, order: seq<string>, now: Time, id: string)
    requires IsOrder(order, t.nodes.Keys)
    ensures var m := Sweep(t, order, now).nodes;
            (id in m <==> id in t.nodes && t.nodes[id].lastSeen >= now - 2 * MINUTE) &&
            (id in m ==> Trimmed(t.nodes[id], m[id], now))
  {
    SweepEffect(t, order, now);
    OrderElements(order, t.nodes.Keys);
    if id in t.nodes {
      var n := t.nodes[id];
      forall i | 0 <= i < |n.services| ensures Unlapsed(n.services[i].candidates, SweptService(n.services[i], now).candidates, now) {
        UnexpiredMeans(n.services[i].candidates, now);
      }
    }
  }

  // ----- heartbeats -----

  /** A candidate of the stored node is within 45 seconds of its end. */
  ghost predicate LeaseRunsLow(n: Node, now: Time) {
    exists s, c :: s in n.services && c in s.candidates && c.expiresAt != ZERO_TIME && c.expiresAt <= now + 45 * SECOND
  }

  /** An accepted heartbeat stores the node; the revision moves exactly for news or for a lease that runs low. */
  lemma RegisterMeans(t: Table, n: Node, now: Time)
    ensures Register(t, n, now).nodes == t.nodes[n.id := n]
    ensures Register(t, n, now).revision ==
            if n.id !in t.nodes || !SameUpToLeases(t.nodes[n.id], n) || LeaseRunsLow(t.nodes[n.id], now)
            then t.revision + 1 else t.revision
  {
    if n.id in t.nodes {
      StripMeans(t.nodes[n.id], n);
      RenewalMeans(t.nodes[n.id], now);
    }
  }

  lemma RenewalMeans(n: Node, now: Time)
    ensures RenewalDue(n, now) <==> LeaseRunsLow(n, now)
  {
    if RenewalDue(n, now) {
      var i, j :| 0 <= i < |n.services| && 0 <= j < |n.services[i].candidates| &&
                  n.services[i].candidates[j].expiresAt != ZERO_TIME &&
                  n.services[i].candidates[j].expiresAt <= now + CANDIDATE_LEASE / 2;
      assert n.services[i] in n.services && n.services[i].candidates[j] in n.services[i].candidates;
    }
    if LeaseRunsLow(n, now) {
      var s, c :| s in n.services && c in s.candidates && c.expiresAt != ZERO_TIME && c.expiresAt <= now + 45 * SECOND;
      var i :| 0 <= i < |n.services| && n.services[i] == s;
      var j :| 0 <= j < |s.candidates| && s.candidates[j] == c;
      assert n.services[i].candidates[j].expiresAt != ZERO_TIME;
    }
  }

  /** What is stored for a heartbeat: the caller's node under its authorized key, with fresh leases and only the fields of its role. */
  ghost predicate StoredFor(input: Node, key: string, now: Time, n: Node) {
    && n.id == input.id && n.name == input.name && n.role == input.role && n.segment == input.segment && n.network == input.network
    && n.identityKey == key && n.lastSeen == now
    && n.relay == (if input.role == Relay then input.relay else None)
    && n.upstream == (if input.role == Subnode then input.upstream else "")
    && |n.services| == |input.services|
    && (forall i :: 0 <= i < |n.services| ==> StoredService(input.services[i], n.services[i], input.id, input.segment, now))
  }

  ghost predicate StoredService(s: Service, r: Service, id: string, segment: string, now: Time) {
    && r.nodeId == id && r.segment == segment && r.name == s.name && r.uuid == s.uuid && r.pin == s.pin
    && (forall i, j :: 0 <= i < j < |r.candidates| ==> Less(r.candidates[i].address, r.candidates[j].address))
    && (forall c :: c in r.candidates ==> c.expiresAt == now + 90 * SECOND)
    && (forall c :: c in s.candidates ==> Candidate(c.address, now + 90 * SECOND) in r.candidates)
    && (forall c :: c in r.candidates ==> exists d :: d in s.candidates && d.address == c.address)
  }

  lemma PreparedMeans(input: Node, key: string, now: Time, n: Node)
    requires IsPrepared(input, key, now, n)
    ensures StoredFor(input, key, now, n)
  {
    forall i | 0 <= i < |n.services| ensures StoredService(input.services[i], n.services[i], input.id, input.segment, now) {
      ServiceMeans(input.services[i], input.id, input.segment, now, n.services[i]);
    }
  }

  lemma ServiceMeans(s: Service, id: string, segment: string, now: Time, r: Service)
    requires IsPreparedService(s, id, segment, now + CANDIDATE_LEASE, r)
    ensures StoredService(s, r, id, segment, now)
  {
    forall i, j | 0 <= i < j < |r.candidates| ensures Less(r.candidates[i].address, r.candidates[j].address) {
      assert Less(Addresses(r.candidates)[i], Addresses(r.candidates)[j]);
    }
    forall c | c in s.candidates ensures Candidate(c.address, now + 90 * SECOND) in r.candidates {
      var i :| 0 <= i < |s.candidates| && s.candidates[i] == c;
      assert Addresses(s.candidates)[i] == c.address;
      assert c.address in Addresses(r.candidates);
      var j :| 0 <= j < |r.candidates| && Addresses(r.candidates)[j] == c.address;
      assert r.candidates[j] == Candidate(c.address, now + 90 * SECOND);
    }
    forall c | c in r.candidates ensures exists d :: d in s.candidates && d.address == c.address {
      var j :| 0 <= j < |r.candidates| && r.candidates[j] == c;
      assert Addresses(r.candidates)[j] == c.address;
      assert c.address in Addresses(s.candidates);
      var i :| 0 <= i < |s.candidates| && Addresses(s.candidates)[i] == c.address;
      assert s.candidates[i] in s.candidates;
    }
  }

  /** A published service that is accepted. */
  ghost predicate Publishable(s: Service, checks: Checks) {
    s.name != "" && s.uuid != "" && checks.pin(s.pin) && |s.candidates| <= 16 &&
    forall c :: c in s.candidates ==> checks.candidate(c.address)
  }

  /** A heartbeat that is accepted, behind its signature and rate. */
  ghost predicate AcceptedUpdate(t: Table, checks: Checks, network: string, n: Node) {
    && n.name != "" && n.network == network
    && (forall s :: s in n.services ==> Publishable(s, checks))
    && (n.role == Relay ==>
          n.relay.Some? && checks.endpoint(n.relay.value.endpoint) && checks.pin(n.relay.value.pin) && n.relay.value.priority >= 0)
    && (n.role == Subnode ==>
          n.upstream != "" && n.upstream in t.nodes && t.nodes[n.upstream].role == Relay &&
          t.nodes[n.upstream].segment == n.segment && t.nodes[n.upstream].network == n.network)
  }

  lemma AllowedMeans(t: Table, checks: Checks, network: string, n: Node)
    ensures UpdateAllowed(t, checks, network, n) <==> AcceptedUpdate(t, checks, network, n)
  {
    forall s ensures ServiceOk(s, checks) <==> Publishable(s, checks) {
      ServiceOkMeans(s, checks);
    }
    assert (forall s :: s in n.services ==> Publishable(s, checks)) <==>
           forall i :: 0 <= i < |n.services| ==> ServiceOk(n.services[i], checks);
  }

  lemma ServiceOkMeans(s: Service, checks: Checks)
    ensures ServiceOk(s, checks) <==> Publishable(s, checks)
  {
    if Publishable(s, checks) {
      forall i | 0 <= i < |s.candidates| ensures checks.candidate(s.candidates[i].address) {
        assert s.candidates[i] in s.candidates;
      }
    }
  }
}
