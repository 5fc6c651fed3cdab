/**
 The coordinator's node table and its revision: the value side of updateNode, discoverNodes and
 the node loop of cleanupLocked in internal/app/coordinator_nodes.go.
 */
module NodeTable {
  import opened Prelude
  import opened Topology
  import opened Candidates

  const CANDIDATE_LEASE: int := 90 * SECOND
  const OFFLINE_AFTER: int := 2 * MINUTE
  const ZERO_TIME: Time := 0

  datatype Table = Table(nodes: map<string, Node>, revision: nat)

  const EMPTY := Table(map[], 0)

  // ----- topology without leases -----

  function StripCandidates(candidates: seq<Candidate>): (r: seq<Candidate>)
    ensures |r| == |candidates|
    ensures forall i :: 0 <= i < |r| ==> r[i] == candidates[i].(expiresAt := ZERO_TIME)
  {
    seq(|candidates|, i requires 0 <= i < |candidates| => candidates[i].(expiresAt := ZERO_TIME))
  }

  function StripService(s: Service): Service {
    s.(candidates := StripCandidates(s.candidates))
  }

  function StripServices(services: seq<Service>): (r: seq<Service>)
    ensures |r| == |services|
    ensures forall i :: 0 <= i < |r| ==> r[i] == StripService(services[i])
  {
    seq(|services|, i requires 0 <= i < |services| => StripService(services[i]))
  }

  /** What sameNodeTopology compares. */
  function Strip(n: Node): Node {
    n.(services := StripServices(n.services), lastSeen := ZERO_TIME)
  }

  ghost function Stripped(nodes: map<string, Node>): map<string, Node> {
    map id | id in nodes :: Strip(nodes[id])
  }

  predicate RenewalDue(n: Node, now: Time) {
    exists i, j :: 0 <= i < |n.services| && 0 <= j < |n.services[i].candidates| &&
                   n.services[i].candidates[j].expiresAt != ZERO_TIME &&
                   n.services[i].candidates[j].expiresAt <= now + CANDIDATE_LEASE / 2
  }

  // ----- the node sweep -----

  predicate Stale(n: Node, now: Time) {
    n.lastSeen < now - OFFLINE_AFTER
  }

  function Unexpired(candidates: seq<Candidate>, now: Time): seq<Candidate> {
    if candidates == [] then []
    else
      var last := candidates[|candidates| - 1];
      Unexpired(candidates[..|candidates| - 1], now) + if last.expiresAt > now then [last] else []
  }

  function SweptService(s: Service, now: Time): Service {
    s.(candidates := Unexpired(s.candidates, now))
  }

  function SweptServices(services: seq<Service>, now: Time): (r: seq<Service>)
    ensures |r| == |services|
    ensures forall i :: 0 <= i < |r| ==> r[i] == SweptService(services[i], now)
  {
    seq(|services|, i requires 0 <= i < |services| => SweptService(services[i], now))
  }

  function SweptNode(n: Node, now: Time): Node {
    n.(services := SweptServices(n.services, now))
  }

  predicate Shrinks(n: Node, now: Time) {
    SweptNode(n, now) != n
  }

  predicate Disturbs(n: Node, now: Time) {
    Stale(n, now) || Shrinks(n, now)
  }

  /** The loop body of the node sweep. */
  function SweepOne(t: Table, id: string, now: Time): Table {
    if id !in t.nodes then t
    else
      Table(if Stale(t.nodes[id], now) then t.nodes - {id} else t.nodes[id := SweptNode(t.nodes[id], now)],
            t.revision + if Disturbs(t.nodes[id], now) then 1 else 0)
  }

  function Sweep(t: Table, order: seq<string>, now: Time): Table {
    if order == [] then t
    else SweepOne(Sweep(t, order[..|order| - 1], now), order[|order| - 1], now)
  }

  // ----- heartbeats -----

  predicate Moves(t: Table, n: Node, now: Time) {
    n.id !in t.nodes || Strip(t.nodes[n.id]) != Strip(n) || RenewalDue(t.nodes[n.id], now)
  }

  function Register(t: Table, n: Node, now: Time): Table {
    Table(t.nodes[n.id := n], t.revision + if Moves(t, n, now) then 1 else 0)
  }

  /** The syntax checks of foreign packages. */
  datatype Checks = Checks(candidate: string -> bool, endpoint: string -> bool, pin: string -> bool)

  predicate ServiceOk(s: Service, checks: Checks) {
    Acceptable(s.candidates, checks.candidate) && s.name != "" && s.uuid != "" && checks.pin(s.pin)
  }

  predicate RelayOk(n: Node, checks: Checks) {
    n.role != Relay ||
    (n.relay.Some? && checks.endpoint(n.relay.value.endpoint) && checks.pin(n.relay.value.pin) && n.relay.value.priority >= 0)
  }

  /** The upstream a subnode names is an active relay of its segment and network. */
  predicate UpstreamActive(t: Table, n: Node) {
    n.upstream in t.nodes && t.nodes[n.upstream].role == Relay &&
    t.nodes[n.upstream].segment == n.segment && t.nodes[n.upstream].network == n.network
  }

  predicate UpstreamOk(t: Table, n: Node) {
    n.role != Subnode || (n.upstream != "" && UpstreamActive(t, n))
  }

  predicate UpdateAllowed(t: Table, checks: Checks, network: string, n: Node) {
    n.name != "" && n.network == network && (forall i :: 0 <= i < |n.services| ==> ServiceOk(n.services[i], checks)) &&
    RelayOk(n, checks) && UpstreamOk(t, n)
  }

  ghost predicate IsPreparedService(s: Service, id: string, segment: string, expiry: Time, r: Service) {
    IsManaged(s.candidates, expiry, r.candidates) &&
    r == Service(id, s.name, segment, r.candidates, s.uuid, s.pin)
  }

  ghost predicate ArePrepared(services: seq<Service>, id: string, segment: string, expiry: Time, r: seq<Service>) {
    |r| == |services| && forall i :: 0 <= i < |r| ==> IsPreparedService(services[i], id, segment, expiry, r[i])
  }

  /** What the coordinator stores for an accepted heartbeat. */
  ghost predicate IsPrepared(input: Node, key: string, now: Time, r: Node) {
    ArePrepared(input.services, input.id, input.segment, now + CANDIDATE_LEASE, r.services) &&
    r == Node(input.id, input.name, input.role, input.segment, input.network, key, r.services,
              if input.role == Relay then input.relay else None,
              if input.role == Subnode then input.upstream else "", now)
  }

  // ----- what peers are shown -----

  function WithoutCandidates(services: seq<Service>): (r: seq<Service>)
    ensures |r| == |services|
    ensures forall i :: 0 <= i < |r| ==> r[i] == services[i].(candidates := [])
  {
    seq(|services|, i requires 0 <= i < |services| => services[i].(candidates := []))
  }

  /** Addresses of another segment are never released. */
  function Released(requester: Node, n: Node): Node {
    if requester.segment == n.segment then n else n.(services := WithoutCandidates(n.services))
  }

  predicate ShownTo(nodes: map<string, Node>, id: string, peer: string)
    requires id in nodes
  {
    peer in nodes && nodes[peer].network == nodes[id].network && peer != id
  }

  ghost function PeerView(nodes: map<string, Node>, id: string): map<string, Node>
    requires id in nodes
  {
    map peer | peer in nodes && ShownTo(nodes, id, peer) :: Released(nodes[id], nodes[peer])
  }

  function NameOf(n: Node): string {
    n.name
  }

  /** Every node of the view once, by name. */
  ghost predicate IsListing(peers: seq<Node>, view: map<string, Node>) {
    && Sorted(Keys(peers, NameOf))
    && Lists(peers, view)
  }

  ghost predicate Lists(peers: seq<Node>, view: map<string, Node>) {
    && (forall i :: 0 <= i < |peers| ==> peers[i].id in view && view[peers[i].id] == peers[i])
    && (forall i, j :: 0 <= i < j < |peers| ==> peers[i].id != peers[j].id)
    && (forall peer :: peer in view ==> view[peer] in peers)
  }

  // ----- effect of the sweep -----

  ghost predicate IdsOk(t: Table) {
    forall id :: id in t.nodes ==> t.nodes[id].id == id
  }

  ghost function Disturbed(nodes: map<string, Node>, done: set<string>, now: Time): set<string> {
    set id | id in done && id in nodes && Disturbs(nodes[id], now)
  }

  function SweptNodes(nodes: map<string, Node>, done: set<string>, now: Time): map<string, Node> {
    map id | id in nodes && !(id in done && Stale(nodes[id], now)) :: if id in done then SweptNode(nodes[id], now) else nodes[id]
  }

  /** The sweep in closed form: it does not mention the order. */
  lemma {:induction false} SweepEffect(t: Table, order: seq<string>, now: Time)
    requires forall i, j :: 0 <= i < j < |order| ==> order[i] != order[j]
    ensures Sweep(t, order, now) ==
            Table(SweptNodes(t.nodes, Elements(order), now), t.revision + |Disturbed(t.nodes, Elements(order), now)|)
  {
    if order == [] {
      assert Disturbed(t.nodes, {}, now) == {};
      assert SweptNodes(t.nodes, {}, now) == t.nodes;
    } else {
      var front, id := order[..|order| - 1], order[|order| - 1];
      SweepEffect(t, front, now);
      OrderPrefix(order);
      assert id !in Elements(front);
      DisturbedStep(t.nodes, Elements(front), id, now);
      SweptNodesStep(t.nodes, Elements(front), id, now);
    }
  }

  lemma DisturbedStep(nodes: map<string, Node>, done: set<string>, id: string, now: Time)
    requires id !in done
    ensures |Disturbed(nodes, done + {id}, now)| ==
            |Disturbed(nodes, done, now)| + if id in nodes && Disturbs(nodes[id], now) then 1 else 0
  {
    var a, b := Disturbed(nodes, done, now), Disturbed(nodes, done + {id}, now);
    assert b == if id in nodes && Disturbs(nodes[id], now) then a + {id} else a;
  }

  lemma SweptNodesStep(nodes: map<string, Node>, done: set<string>, id: string, now: Time)
    requires id !in done
    ensures id in SweptNodes(nodes, done, now) <==> id in nodes
    ensures id in nodes ==> SweptNodes(nodes, done, now)[id] == nodes[id]
    ensures SweptNodes(nodes, done + {id}, now) ==
            if id !in nodes then SweptNodes(nodes, done, now)
            else if Stale(nodes[id], now) then SweptNodes(nodes, done, now) - {id}
            else SweptNodes(nodes, done, now)[id := SweptNode(nodes[id], now)]
  {
  }

  /** The node sweep gives the same table and revision in every visiting order. */
  lemma SweepOrderIrrelevant(t: Table, first: seq<string>, second: seq<string>, now: Time)
    requires IsOrder(first, t.nodes.Keys) && IsOrder(second, t.nodes.Keys)
    ensures Sweep(t, first, now) == Sweep(t, second, now)
  {
    SweepEffect(t, first, now);
    SweepEffect(t, second, now);
    OrderElements(first, t.nodes.Keys);
    OrderElements(second, t.nodes.Keys);
  }

  lemma {:induction false} UnexpiredTwice(candidates: seq<Candidate>, now: Time)
    ensures Unexpired(Unexpired(candidates, now), now) == Unexpired(candidates, now)
  {
    if candidates != [] {
      var front, last := candidates[..|candidates| - 1], candidates[|candidates| - 1];
      UnexpiredTwice(front, now);
      var u := Unexpired(front, now);
      assert (u + [last])[..|u|] == u;
      assert u + [] == u;
    }
  }

  lemma SweptTwice(n: Node, now: Time)
    ensures SweptNode(SweptNode(n, now), now) == SweptNode(n, now)
  {
    var once := SweptServices(n.services, now);
    forall i | 0 <= i < |once| ensures SweptService(once[i], now) == once[i] {
      UnexpiredTwice(n.services[i].candidates, now);
    }
    assert SweptServices(once, now) == once;
  }

  /** A second sweep at the same instant changes neither the table nor the revision. */
  lemma SweepIdempotent(t: Table, first: seq<string>, second: seq<string>, now: Time)
    requires IsOrder(first, t.nodes.Keys) && IsOrder(second, Sweep(t, first, now).nodes.Keys)
    ensures Sweep(Sweep(t, first, now), second, now) == Sweep(t, first, now)
  {
    var m := Sweep(t, first, now);
    SweepEffect(t, first, now);
    OrderElements(first, t.nodes.Keys);
    SweepEffect(m, second, now);
    OrderElements(second, m.nodes.Keys);
    forall id | id in m.nodes ensures !Disturbs(m.nodes[id], now) {
      SweptTwice(t.nodes[id], now);
    }
    assert Disturbed(m.nodes, m.nodes.Keys, now) == {};
    assert SweptNodes(m.nodes, m.nodes.Keys, now) == m.nodes;
  }

  /** The sweep drops nobody who was seen within two minutes, and of the others' candidates only expired ones. */
  lemma {:induction false} UnexpiredKeeps(candidates: seq<Candidate>, now: Time)
    ensures forall c :: c in Unexpired(candidates, now) <==> c in candidates && c.expiresAt > now
  {
    if candidates != [] {
      UnexpiredKeeps(candidates[..|candidates| - 1], now);
    }
  }

  // ----- the revision follows the topology -----

  lemma SweepAdvances(t: Table, order: seq<string>, now: Time)
    requires IsOrder(order, t.nodes.Keys)
    ensures Sweep(t, order, now).revision >= t.revision
    ensures Sweep(t, order, now).revision == t.revision ==> Sweep(t, order, now) == t
  {
    SweepEffect(t, order, now);
    OrderElements(order, t.nodes.Keys);
    var d := Disturbed(t.nodes, t.nodes.Keys, now);
    if |d| == 0 {
      forall id | id in t.nodes ensures !Disturbs(t.nodes[id], now) {
        assert id !in d;
      }
      assert SweptNodes(t.nodes, t.nodes.Keys, now) == t.nodes;
    }
  }

  lemma RegisterAdvances(t: Table, n: Node, now: Time)
    ensures Register(t, n, now).revision >= t.revision
    ensures Register(t, n, now).revision == t.revision ==> Stripped(Register(t, n, now).nodes) == Stripped(t.nodes)
  {
  }

  lemma NothingToSweep(t: Table, order: seq<string>, now: Time)
    requires IsOrder(order, t.nodes.Keys) && forall id :: id in t.nodes ==> !Disturbs(t.nodes[id], now)
    ensures Sweep(t, order, now) == t
  {
    SweepEffect(t, order, now);
    OrderElements(order, t.nodes.Keys);
    assert Disturbed(t.nodes, t.nodes.Keys, now) == {};
    assert SweptNodes(t.nodes, t.nodes.Keys, now) == t.nodes;
  }

  /** A heartbeat that moves the revision does so because something visible changed or a lease ran low. */
  lemma QuietHeartbeat(t: Table, n: Node, order: seq<string>, now: Time)
    requires n.id in t.nodes && Strip(t.nodes[n.id]) == Strip(n) && !RenewalDue(t.nodes[n.id], now)
    requires IsOrder(order, t.nodes.Keys)
    requires forall id :: id in t.nodes && id != n.id ==> !Disturbs(t.nodes[id], now)
    requires !Disturbs(n, now)
    ensures Sweep(Register(t, n, now), order, now) == Table(t.nodes[n.id := n], t.revision)
  {
    var m := Register(t, n, now);
    assert m.nodes.Keys == t.nodes.Keys;
    NothingToSweep(m, order, now);
  }
}
