/**
 Route selection and dial order: resolveRoute, routeRelayCandidates and handle of
 internal/app/relay_pull.go. Whether a dial succeeds, and what the clock shows, is given.
 */
module Routes {
  import opened Prelude
  import opened Topology
  import opened Candidates
  import opened Sorting

  const COOLDOWN: int := 30 * SECOND

  /** The local profile: its own node as it would publish it, and its subnode settings. */
  datatype Local = Local(node: Node, upstream: string, upstreamEndpoint: string, coordinatorReady: bool)

  datatype RouteError = NotDiscovered | NotPublished | UpstreamMissing

  datatype Route =
    | Resolved(target: Node, service: Service, relays: seq<Node>)
    | Failed(error: RouteError)

  // ----- resolving -----

  predicate IsRelay(n: Node) {
    n.role == Relay && n.relay.Some?
  }

  predicate Eligible(local: Node, target: Node, n: Node) {
    n.id != local.id && IsRelay(n) && n.segment == target.segment && (target.role == Subnode ==> n.id == target.upstream)
  }

  /** The order of the relay list: by priority, then by ID. */
  predicate Precedes(a: Node, b: Node) {
    PriorityOf(a) < PriorityOf(b) || (PriorityOf(a) == PriorityOf(b) && Less(a.id, b.id))
  }

  function PriorityOf(n: Node): int {
    if n.relay.Some? then n.relay.value.priority else 0
  }

  ghost predicate AllRelays(relays: seq<Node>) {
    forall i :: 0 <= i < |relays| ==> IsRelay(relays[i])
  }

  ghost predicate InOrder(relays: seq<Node>) {
    forall i, j :: 0 <= i < j < |relays| ==> Precedes(relays[i], relays[j])
  }

  ghost predicate DistinctIds(nodes: seq<Node>) {
    forall i, j :: 0 <= i < j < |nodes| ==> nodes[i].id != nodes[j].id
  }

  /** The relay list is exactly the eligible relays, in order. */
  ghost predicate IsRelayList(nodes: seq<Node>, local: Node, target: Node, relays: seq<Node>) {
    AllRelays(relays) && InOrder(relays) &&
    forall n :: n in relays <==> n in nodes && Eligible(local, target, n)
  }

  /** The first node of the ID, None if there is none. */
  ghost predicate IsFirstNode(nodes: seq<Node>, id: string, found: Option<Node>) {
    if found.None? then forall i :: 0 <= i < |nodes| ==> nodes[i].id != id
    else exists i :: 0 <= i < |nodes| && nodes[i] == found.value && found.value.id == id && forall j :: 0 <= j < i ==> nodes[j].id != id
  }

  method FindNode(nodes: seq<Node>, id: string) returns (found: Option<Node>)
    ensures IsFirstNode(nodes, id, found)
  {
    for i := 0 to |nodes|
      invariant forall j :: 0 <= j < i ==> nodes[j].id != id
    {
      if nodes[i].id == id {
        return Some(nodes[i]);
      }
    }
    found := None;
  }

  lemma PrecedesTotal(a: Node, b: Node)
    requires a.id != b.id
    ensures Precedes(a, b) || Precedes(b, a)
    ensures !(Precedes(a, b) && Precedes(b, a))
  {
    LessTotal(a.id, b.id);
  }

  lemma RelayOrder()
    ensures IsOrdering(Precedes)
  {
    forall a, b | Precedes(a, b) ensures !Precedes(b, a) {
      LessTotal(a.id, b.id);
    }
    forall a, b, c | !Precedes(b, a) && !Precedes(c, b) ensures !Precedes(c, a) {
      if PriorityOf(a) == PriorityOf(b) == PriorityOf(c) {
        NotLessTransitive(a.id, b.id, c.id);
      }
    }
  }

  /** The eligible relays among the nodes seen, each once. */
  ghost predicate Collected(found: seq<Node>, nodes: seq<Node>, local: Node, target: Node) {
    && DistinctBy(found, (n: Node) => n.id)
    && (forall n :: n in found <==> n in nodes && Eligible(local, target, n))
  }

  lemma SortedIsRelayList(found: seq<Node>, relays: seq<Node>, nodes: seq<Node>, local: Node, target: Node)
    requires Collected(found, nodes, local, target) && SortedBy(relays, Precedes) && multiset(relays) == multiset(found)
    ensures IsRelayList(nodes, local, target, relays)
  {
    SameElements(relays, found);
    DistinctKept(found, relays, (n: Node) => n.id);
    forall i | 0 <= i < |relays| ensures IsRelay(relays[i]) {
      assert relays[i] in found;
    }
    forall i, j | 0 <= i < j < |relays| ensures Precedes(relays[i], relays[j]) {
      PrecedesTotal(relays[i], relays[j]);
    }
  }

  /** The relay loop and the sort of resolveRoute. */
  method ListRelays(nodes: seq<Node>, local: Node, target: Node) returns (relays: seq<Node>)
    requires DistinctRelays(nodes, local)
    ensures IsRelayList(nodes, local, target, relays)
  {
    var found: seq<Node> := [];
    for i := 0 to |nodes|
      invariant Collected(found, nodes[..i], local, target)
    {
      assert nodes[..i + 1] == nodes[..i] + [nodes[i]];
      if nodes[i].id != local.id && nodes[i].role == Relay && nodes[i].segment == target.segment && nodes[i].relay.Some? &&
         !(target.role == Subnode && nodes[i].id != target.upstream) {
        forall j | 0 <= j < |found| ensures found[j].id != nodes[i].id {
          assert found[j] in nodes[..i];
          var k :| 0 <= k < i && nodes[k] == found[j];
        }
        found := found + [nodes[i]];
      }
    }
    assert nodes[..|nodes|] == nodes;
    RelayOrder();
    relays := Sort(found, Precedes);
    SortedIsRelayList(found, relays, nodes, local, target);
  }

  /** No two nodes share an ID, other than copies of the local one. */
  ghost predicate DistinctRelays(nodes: seq<Node>, local: Node) {
    forall i, j :: 0 <= i < j < |nodes| && nodes[i].id == nodes[j].id ==> nodes[i].id == local.id
  }

  /** What resolveRoute returns for the cached peers and the local node behind them. */
  ghost predicate IsRoute(peers: seq<Node>, local: Node, targetId: string, serviceName: string, route: Route) {
    var nodes := peers + [local];
    match route
    case Resolved(target, service, relays) =>
      IsFirstNode(nodes, targetId, Some(target)) && targetId != "" &&
      IsFirstService(target.services, serviceName, Some(service)) && serviceName != "" &&
      IsRelayList(nodes, local, target, relays) && (target.role == Subnode ==> relays != [])
    case Failed(NotDiscovered) => targetId == "" || IsFirstNode(nodes, targetId, None)
    case Failed(NotPublished) =>
      exists target :: IsFirstNode(nodes, targetId, Some(target)) &&
        (serviceName == "" || IsFirstService(target.services, serviceName, None))
    case Failed(UpstreamMissing) =>
      exists target :: IsFirstNode(nodes, targetId, Some(target)) && target.role == Subnode &&
        forall n :: n in nodes ==> !Eligible(local, target, n)
  }

  method ResolveRoute(peers: seq<Node>, local: Node, targetId: string, serviceName: string) returns (route: Route)
    requires DistinctIds(peers)
    ensures IsRoute(peers, local, targetId, serviceName, route)
  {
    var nodes := peers + [local];
    var target := FindNode(nodes, targetId);
    if target == None || target.value.id == "" {
      return Failed(NotDiscovered);
    }
    var service := FindService(target.value.services, serviceName);
    if service == None || service.value.name == "" {
      assert IsFirstNode(nodes, targetId, Some(target.value));
      return Failed(NotPublished);
    }
    DistinctWithLocal(peers, local);
    var relays := ListRelays(nodes, local, target.value);
    if target.value.role == Subnode && |relays| == 0 {
      assert IsFirstNode(nodes, targetId, Some(target.value));
      return Failed(UpstreamMissing);
    }
    route := Resolved(target.value, service.value, relays);
  }

  lemma DistinctWithLocal(peers: seq<Node>, local: Node)
    requires DistinctIds(peers)
    ensures DistinctRelays(peers + [local], local)
  {
    var nodes := peers + [local];
    forall i, j | 0 <= i < j < |nodes| && nodes[i].id == nodes[j].id ensures nodes[i].id == local.id {
    }
  }

  /** The relay list does not depend on the order of the cached peers. */
  lemma {:induction false} RelayListUnique(a: seq<Node>, b: seq<Node>)
    requires AllRelays(a) && AllRelays(b) && InOrder(a) && InOrder(b) && (forall n :: n in a <==> n in b)
    requires forall m, n :: m in a && n in a && m.id == n.id ==> m == n
    ensures a == b
  {
    HasNode(a);
    HasNode(b);
    if a != [] && b != [] {
      var p, q := a[..|a| - 1], b[..|b| - 1];
      LastSame(a, b);
      PrefixesAgree(a, b, p, q);
      RelayListUnique(p, q);
      assert a == p + [a[|a| - 1]] && b == q + [b[|b| - 1]];
    }
  }

  lemma PrefixesAgree(a: seq<Node>, b: seq<Node>, p: seq<Node>, q: seq<Node>)
    requires AllRelays(a) && AllRelays(b) && InOrder(a) && InOrder(b) && (forall n :: n in a <==> n in b)
    requires a != [] && b != [] && a[|a| - 1] == b[|b| - 1] && p == a[..|a| - 1] && q == b[..|b| - 1]
    ensures forall n :: n in p <==> n in q
  {
    NotAgain(a);
    NotAgain(b);
    forall n ensures n in p <==> n in q {
      assert n in p <==> n in a && n != a[|a| - 1];
      assert n in q <==> n in b && n != b[|b| - 1];
    }
  }

  lemma HasNode(a: seq<Node>)
    ensures a == [] || exists n :: n in a
  {
    if a != [] {
      assert a[0] in a;
    }
  }

  lemma NotAgain(a: seq<Node>)
    requires AllRelays(a) && InOrder(a) && a != []
    ensures forall n :: n in a[..|a| - 1] <==> n in a && n != a[|a| - 1]
  {
    var x := a[|a| - 1];
    LessTotal(x.id, x.id);
    assert a == a[..|a| - 1] + [x];
  }

  lemma LastSame(a: seq<Node>, b: seq<Node>)
    requires AllRelays(a) && AllRelays(b) && InOrder(a) && InOrder(b) && (forall n :: n in a <==> n in b)
    requires forall m, n :: m in a && n in a && m.id == n.id ==> m == n
    requires a != [] && b != []
    ensures a[|a| - 1] == b[|b| - 1]
  {
    var x, y := a[|a| - 1], b[|b| - 1];
    assert x in b && y in a;
    if x.id != y.id {
      var i :| 0 <= i < |a| && a[i] == y;
      var j :| 0 <= j < |b| && b[j] == x;
      PrecedesTotal(x, y);
    }
  }

  /** What a resolved route holds, in plain terms. */
  lemma ResolvedMeans(peers: seq<Node>, local: Node, targetId: string, name: string, route: Route)
    requires IsRoute(peers, local, targetId, name, route) && route.Resolved?
    ensures route.target in peers + [local] && route.target.id == targetId != ""
    ensures route.service in route.target.services && route.service.name == name != ""
    ensures forall n :: n in route.relays <==>
              n in peers + [local] && n.id != local.id && n.role == Relay && n.relay.Some? &&
              n.segment == route.target.segment && (route.target.role == Subnode ==> n.id == route.target.upstream)
    ensures forall i, j :: 0 <= i < j < |route.relays| ==> Sooner(route.relays[i], route.relays[j])
  {
    assert AllRelays(route.relays);
  }

  /** By priority, then by ID. */
  predicate Sooner(a: Node, b: Node) {
    a.relay.Some? && b.relay.Some? &&
    (a.relay.value.priority < b.relay.value.priority || (a.relay.value.priority == b.relay.value.priority && Less(a.id, b.id)))
  }

  /** And when there is none. */
  lemma FailedMeans(peers: seq<Node>, local: Node, targetId: string, name: string, route: Route)
    requires IsRoute(peers, local, targetId, name, route) && route.Failed?
    ensures route.error == NotDiscovered ==> targetId == "" || forall n :: n in peers + [local] ==> n.id != targetId
    ensures route.error == NotPublished ==>
              exists t :: t in peers + [local] && t.id == targetId && (name == "" || forall s :: s in t.services ==> s.name != name)
    ensures route.error == UpstreamMissing ==>
              exists t :: t in peers + [local] && t.id == targetId && t.role == Subnode &&
                forall n :: n in peers + [local] ==>
                  n.id != t.upstream || n.id == local.id || n.role != Relay || n.relay == None || n.segment != t.segment
  {
    var nodes := peers + [local];
    if route.error != NotDiscovered {
      var t :| IsFirstNode(nodes, targetId, Some(t)) &&
               (route.error == NotPublished ==> name == "" || IsFirstService(t.services, name, None)) &&
               (route.error == UpstreamMissing ==> t.role == Subnode && forall n :: n in nodes ==> !Eligible(local, t, n));
      assert t in nodes;
    }
  }
}
