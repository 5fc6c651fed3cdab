/**
 The node handlers of internal/app/coordinator_nodes.go as they change the registry under its
 mutex, proved against the table operations.
 */
module NodeTableServer {
  import opened Prelude
  import opened Topology
  import opened Candidates
  import opened NodeTable
  import opened NodeMeaning

  datatype DiscoverOutcome =
    | NotRegistered
    | Unchanged(revision: nat)
    | Changed(revision: nat, nodes: seq<Node>)

  /** The status of a heartbeat whose signature and rate have been checked. */
  function UpdateStatus(t: Table, checks: Checks, network: string, caller: string, input: Node): int {
    if input.id != caller then 400
    else if input.name == "" || input.network != network then 403
    else if !UpdateAllowed(t, checks, network, input) then 400
    else 200
  }

  lemma {:induction false} UnexpiredShorter(candidates: seq<Candidate>, now: Time)
    ensures |Unexpired(candidates, now)| <= |candidates|
    ensures |Unexpired(candidates, now)| == |candidates| ==> Unexpired(candidates, now) == candidates
  {
    if candidates != [] {
      UnexpiredShorter(candidates[..|candidates| - 1], now);
      LastUnexpired(candidates, candidates[..|candidates| - 1], Unexpired(candidates[..|candidates| - 1], now), now);
    }
  }

  lemma LastUnexpired(candidates: seq<Candidate>, front: seq<Candidate>, kept: seq<Candidate>, now: Time)
    requires candidates != [] && front == candidates[..|candidates| - 1] && kept == Unexpired(front, now)
    requires |kept| <= |front| && (|kept| == |front| ==> kept == front)
    ensures |Unexpired(candidates, now)| <= |candidates|
    ensures |Unexpired(candidates, now)| == |candidates| ==> Unexpired(candidates, now) == candidates
  {
    var last := candidates[|candidates| - 1];
    var all := kept + if last.expiresAt > now then [last] else [];
    assert Unexpired(candidates, now) == all;
    assert |all| == |candidates| ==> all == front + [last];
  }

  /** One service of the sweep; only a shorter list replaces the old one. */
  method FilterService(s: Service, now: Time) returns (r: Service, changed: bool)
    ensures r == SweptService(s, now) && changed == (r != s)
  {
    var active: seq<Candidate> := [];
    for i := 0 to |s.candidates|
      invariant active == Unexpired(s.candidates[..i], now)
    {
      assert s.candidates[..i + 1][..i] == s.candidates[..i];
      if s.candidates[i].expiresAt > now {
        active := active + [s.candidates[i]];
      }
    }
    assert s.candidates[..|s.candidates|] == s.candidates;
    UnexpiredShorter(s.candidates, now);
    r, changed := s, false;
    if |active| != |s.candidates| {
      r, changed := s.(candidates := active), true;
    }
  }

  method FilterNode(n: Node, now: Time) returns (r: Node, changed: bool)
    ensures r == SweptNode(n, now) && changed == Shrinks(n, now)
  {
    var services: seq<Service> := [];
    changed := false;
    for i := 0 to |n.services|
      invariant |services| == i
      invariant forall j :: 0 <= j < i ==> services[j] == SweptService(n.services[j], now)
      invariant changed <==> services != n.services[..i]
    {
      var service, shorter := FilterService(n.services[i], now);
      assert n.services[..i + 1] == n.services[..i] + [n.services[i]];
      services := services + [service];
      changed := changed || shorter;
    }
    assert n.services[..|n.services|] == n.services;
    assert services == SweptServices(n.services, now);
    r := n.(services := services);
  }

  /** The services a heartbeat publishes, as they will be stored. */
  method PrepareServices(input: Node, expiry: Time, checks: Checks) returns (r: Option<seq<Service>>)
    ensures r.Some? <==> forall i :: 0 <= i < |input.services| ==> ServiceOk(input.services[i], checks)
    ensures r.Some? ==> ArePrepared(input.services, input.id, input.segment, expiry, r.value)
  {
    var services: seq<Service> := [];
    for i := 0 to |input.services|
      invariant |services| == i
      invariant forall j :: 0 <= j < i ==> ServiceOk(input.services[j], checks)
      invariant forall j :: 0 <= j < i ==>
                  IsPreparedService(input.services[j], input.id, input.segment, expiry, services[j])
    {
      var s := input.services[i];
      var managed := ManagedCandidates(s.candidates, expiry, checks.candidate);
      if s.name == "" || s.uuid == "" || managed == None || !checks.pin(s.pin) {
        assert !ServiceOk(s, checks);
        return None;
      }
      services := services + [Service(input.id, s.name, input.segment, managed.value, s.uuid, s.pin)];
    }
    r := Some(services);
  }

  ghost predicate AreShown(peers: seq<Node>, nodes: map<string, Node>, requester: Node, done: set<string>) {
    && (forall i :: 0 <= i < |peers| ==>
          peers[i].id in done && peers[i].id in nodes && peers[i] == Released(requester, nodes[peers[i].id]) &&
          nodes[peers[i].id].network == requester.network && peers[i].id != requester.id)
    && (forall i, j :: 0 <= i < j < |peers| ==> peers[i].id != peers[j].id)
    && (forall id :: id in done && id in nodes && nodes[id].network == requester.network && id != requester.id ==>
          Released(requester, nodes[id]) in peers)
  }

  function IdOf(n: Node): string {
    n.id
  }

  lemma ShownSorted(peers: seq<Node>, sorted: seq<Node>, nodes: map<string, Node>, id: string)
    requires id in nodes && IdsOk(Table(nodes, 0)) && AreShown(peers, nodes, nodes[id], nodes.Keys)
    requires multiset(sorted) == multiset(peers) && Sorted(Keys(sorted, NameOf))
    ensures IsListing(sorted, PeerView(nodes, id))
  {
    SameElements(sorted, peers);
    forall i | 0 <= i < |sorted| ensures sorted[i].id in PeerView(nodes, id) && PeerView(nodes, id)[sorted[i].id] == sorted[i] {
      assert sorted[i] in peers;
    }
    assert DistinctBy(peers, IdOf);
    DistinctKept(peers, sorted, IdOf);
    assert forall i, j :: 0 <= i < j < |sorted| ==> IdOf(sorted[i]) != IdOf(sorted[j]);
  }

  class Directory {
    const network: string
    var nodes: map<string, Node>
    var revision: nat

    ghost function View(): Table
      reads this
    {
      Table(nodes, revision)
    }

    ghost predicate Valid()
      reads this
    {
      IdsOk(View())
    }

    constructor (network: string)
      ensures Valid() && View() == EMPTY && this.network == network
    {
      this.network := network;
      nodes, revision := map[], 0;
    }

    method CleanupOne(id: string, now: Time) returns (changed: bool)
      requires id in nodes
      modifies this
      ensures View() == NodeTable.SweepOne(old(View()), id, now)
      ensures changed == Disturbs(old(nodes[id]), now)
    {
      var node := nodes[id];
      if node.lastSeen < now - OFFLINE_AFTER {
        nodes := nodes - {id};
        revision := revision + 1;
        return true;
      }
      var filtered, shrunk := FilterNode(node, now);
      if shrunk {
        nodes := nodes[id := filtered];
        revision := revision + 1;
      } else {
        assert nodes == nodes[id := node];
      }
      changed := shrunk;
    }

    /** The node loop of cleanupLocked; `order` is the order in which the map was visited. */
    method CleanupNodes(now: Time) returns (ghost order: seq<string>)
      requires Valid()
      modifies this
      ensures Valid() && IsOrder(order, old(nodes.Keys)) && View() == NodeTable.Sweep(old(View()), order, now)
    {
      order := [];
      var remaining := nodes.Keys;
      while remaining != {}
        invariant remaining <= old(nodes.Keys) && remaining <= nodes.Keys
        invariant IsOrder(order, old(nodes.Keys) - remaining)
        invariant Valid() && View() == NodeTable.Sweep(old(View()), order, now)
        decreases |remaining|
      {
        var id :| id in remaining;
        remaining := remaining - {id};
        var _ := CleanupOne(id, now);
        OrderVisit(old(nodes.Keys), remaining, order, id);
        order := order + [id];
      }
    }

    /** The nodes `requester` may see, by name. */
    method List(id: string) returns (sorted: seq<Node>)
      requires Valid() && id in nodes
      ensures IsListing(sorted, PeerView(nodes, id)) && ShowsTo(nodes, id, sorted)
    {
      var requester := nodes[id];
      var peers: seq<Node> := [];
      var remaining := nodes.Keys;
      while remaining != {}
        invariant remaining <= nodes.Keys
        invariant AreShown(peers, nodes, requester, nodes.Keys - remaining)
        decreases |remaining|
      {
        var peer :| peer in remaining;
        remaining := remaining - {peer};
        var candidate := nodes[peer];
        if candidate.network == requester.network && candidate.id != id {
          peers := peers + [if requester.segment == candidate.segment then candidate
                            else candidate.(services := WithoutCandidates(candidate.services))];
        }
      }
      assert nodes.Keys - remaining == nodes.Keys;
      sorted := SortBy(peers, NameOf);
      ShownSorted(peers, sorted, nodes, id);
      ListingMeans(nodes, id, sorted);
    }

    /**
     updateNode behind the signature and rate checks. The completion of an approved enrollment in
     the same section touches other state; Enrollment models it.
     */
    method UpdateNode(caller: string, key: string, input: Node, checks: Checks, now: Time, persisted: bool)
      returns (status: int, listing: seq<Node>, current: nat, ghost stored: Node, ghost order: seq<string>)
      requires Valid()
      modifies this
      ensures Valid()
      ensures var verdict := UpdateStatus(old(View()), checks, network, caller, input);
              if verdict != 200 then status == verdict && View() == old(View())
              else
                IsPrepared(input, key, now, stored) && IsOrder(order, old(nodes.Keys) + {caller}) &&
                View() == NodeTable.Sweep(NodeTable.Register(old(View()), stored, now), order, now) &&
                status == (if persisted then 200 else 500) && current == revision &&
                caller in nodes && IsListing(listing, PeerView(nodes, caller))
      ensures if input.id != caller then status == 400 && View() == old(View())
              else if input.name == "" || input.network != network then status == 403 && View() == old(View())
              else if AcceptedUpdate(old(View()), checks, network, input)
              then StoredFor(input, key, now, stored) && caller in nodes && ShowsTo(nodes, caller, listing)
              else status == 400 && View() == old(View())
    {
      AllowedMeans(View(), checks, network, input);
      listing, current, stored, order := [], 0, input, [];
      if input.id != caller {
        return 400, [], 0, input, [];
      }
      if input.name == "" || input.network != network {
        return 403, [], 0, input, [];
      }
      var services := PrepareServices(input, now + CANDIDATE_LEASE, checks);
      if services == None {
        return 400, [], 0, input, [];
      }
      var roleOk := CheckRole(input, checks);
      if !roleOk {
        return 400, [], 0, input, [];
      }
      var node := Node(input.id, input.name, input.role, input.segment, input.network, key, services.value,
                       if input.role == Relay then input.relay else None,
                       if input.role == Subnode then input.upstream else "", now);
      stored := node;
      PreparedMeans(input, key, now, node);
      order := StoreNode(node, now);
      current := revision;
      listing := List(caller);
      status := if persisted then 200 else 500;
    }

    /** The relay advertisement and the upstream of a subnode. */
    method CheckRole(input: Node, checks: Checks) returns (ok: bool)
      ensures ok == (RelayOk(input, checks) && UpstreamOk(View(), input))
    {
      if input.role == Relay {
        return input.relay.Some? && checks.endpoint(input.relay.value.endpoint) && checks.pin(input.relay.value.pin) &&
               input.relay.value.priority >= 0;
      }
      if input.role == Subnode {
        if input.upstream == "" || input.upstream !in nodes {
          return false;
        }
        var upstream := nodes[input.upstream];
        return upstream.role == Relay && upstream.segment == input.segment && upstream.network == input.network;
      }
      ok := true;
    }

    method StoreNode(node: Node, now: Time) returns (ghost order: seq<string>)
      requires Valid() && node.lastSeen == now
      modifies this
      ensures Valid() && IsOrder(order, old(nodes.Keys) + {node.id}) && node.id in nodes
      ensures View() == NodeTable.Sweep(NodeTable.Register(old(View()), node, now), order, now)
    {
      PutNode(node, now);
      ghost var registered := View();
      order := CleanupNodes(now);
      FreshStays(registered, order, node.id, now);
    }

    method PutNode(node: Node, now: Time)
      requires Valid()
      modifies this
      ensures Valid() && View() == NodeTable.Register(old(View()), node, now)
    {
      var moved := node.id !in nodes || Strip(nodes[node.id]) != Strip(node) || RenewalDue(nodes[node.id], now);
      nodes := nodes[node.id := node];
      revision := if moved then revision + 1 else revision;
    }

    /** POST /v1/nodes/discovery behind the signature check. */
    method Discover(id: string, after: nat, now: Time) returns (outcome: DiscoverOutcome, ghost order: seq<string>)
      requires Valid()
      modifies this
      ensures Valid() && IsOrder(order, old(nodes.Keys)) && View() == NodeTable.Sweep(old(View()), order, now)
      ensures outcome.NotRegistered? <==> id !in nodes
      ensures outcome.Unchanged? ==> after == revision == outcome.revision
      ensures outcome.Changed? ==> after != revision == outcome.revision && IsListing(outcome.nodes, PeerView(nodes, id))
      ensures outcome.Changed? ==> ShowsTo(nodes, id, outcome.nodes)
    {
      order := CleanupNodes(now);
      if id !in nodes {
        return NotRegistered, order;
      }
      if after == revision {
        return Unchanged(revision), order;
      }
      var listing := List(id);
      outcome := Changed(revision, listing);
    }
  }

  lemma FreshStays(t: Table, order: seq<string>, id: string, now: Time)
    requires IsOrder(order, t.nodes.Keys) && id in t.nodes && t.nodes[id].lastSeen == now
    ensures id in Sweep(t, order, now).nodes
  {
    SweepEffect(t, order, now);
  }
}
