/**
 The dials of one application connection: handle, tryReverse's precondition, isCooling and
 markFailure of internal/app/relay_pull.go.
 */
module DialOrder {
  import opened Prelude
  import opened Topology
  import opened Candidates
  import opened Routes

  type Cooling = map<string, Time>

  datatype Attempt =
    | Direct(service: Service)
    | ToRelay(relay: Node)
    | ToUpstream(relayId: string, endpoint: string)
    | Reverse(nodeId: string, name: string)

  /**
   looked(i), failed(i) - the instants at which candidate i was considered and found dead
   others(i)            - what other connections have marked since the last candidate was done with
   */
  datatype World = World(works: Attempt -> bool, looked: nat -> Time, failed: nat -> Time, others: nat -> Cooling)

  function EndpointOf(n: Node): string {
    if n.relay.Some? then n.relay.value.endpoint else ""
  }

  predicate IsCooling(cooling: Cooling, endpoint: string, now: Time) {
    endpoint in cooling && cooling[endpoint] > now
  }

  function RelayCandidates(target: Node, relays: seq<Node>): seq<Node> {
    if target.role == Relay then if target.relay == None then [] else [target] else relays
  }

  predicate CanReverse(local: Local) {
    local.node.role == Relay && EndpointOf(local.node) != "" && local.coordinatorReady
  }

  /** The loop over relay candidates after it has considered some of them. */
  datatype Walk = Walk(dials: seq<Attempt>, cooling: Cooling, connected: bool)

  function WalkTo(relays: seq<Node>, n: nat, cooling: Cooling, w: World): Walk
    requires n <= |relays|
  {
    if n == 0 then Walk([], cooling, false)
    else
      var before := WalkTo(relays, n - 1, cooling, w);
      var relay, table := relays[n - 1], before.cooling + w.others(n - 1);
      if before.connected then before
      else if IsCooling(table, EndpointOf(relay), w.looked(n - 1)) then before.(cooling := table)
      else if w.works(ToRelay(relay)) then Walk(before.dials + [ToRelay(relay)], table, true)
      else Walk(before.dials + [ToRelay(relay)], table[EndpointOf(relay) := w.failed(n - 1) + COOLDOWN], false)
  }

  /** The table as the look at candidate i finds it. */
  function TableAt(relays: seq<Node>, i: nat, cooling: Cooling, w: World): Cooling
    requires i <= |relays|
  {
    WalkTo(relays, i, cooling, w).cooling + w.others(i)
  }

  /** What handle leaves behind: its dials in order, whether one worked, and the cooling table. */
  datatype Outcome = Outcome(dials: seq<Attempt>, connected: bool, cooling: Cooling)

  function WithReverse(local: Local, target: Node, service: Service, sofar: Outcome, w: World): Outcome {
    if !CanReverse(local) then sofar
    else
      sofar.(dials := sofar.dials + [Reverse(target.id, service.name)], connected := w.works(Reverse(target.id, service.name)))
  }

  function Plan(local: Local, target: Node, service: Service, relays: seq<Node>, cooling: Cooling, w: World): Outcome {
    if local.node.role == Subnode then
      var upstream := ToUpstream(local.upstream, local.upstreamEndpoint);
      Outcome([upstream], w.works(upstream), cooling)
    else
      var direct := if local.node.segment == target.segment && target.role != Subnode then [Direct(service)] else [];
      if direct != [] && w.works(Direct(service)) then Outcome(direct, true, cooling)
      else
        var candidates := RelayCandidates(target, relays);
        var walk := WalkTo(candidates, |candidates|, cooling, w);
        var sofar := Outcome(direct + walk.dials, walk.connected, walk.cooling);
        if walk.connected || (candidates != [] && target.role == Subnode) then sofar
        else WithReverse(local, target, service, sofar, w)
  }

  class SmartPull {
    var cooling: Cooling

    constructor ()
      ensures cooling == map[]
    {
      cooling := map[];
    }

    method WalkRelays(candidates: seq<Node>, w: World) returns (dials: seq<Attempt>, connected: bool)
      modifies this
      ensures WalkTo(candidates, |candidates|, old(cooling), w) == Walk(dials, cooling, connected)
    {
      dials, connected := [], false;
      for i := 0 to |candidates|
        invariant !connected && WalkTo(candidates, i, old(cooling), w) == Walk(dials, cooling, false)
      {
        var endpoint := EndpointOf(candidates[i]);
        cooling := cooling + w.others(i);
        if endpoint in cooling && cooling[endpoint] > w.looked(i) {
          continue;
        }
        dials := dials + [ToRelay(candidates[i])];
        if w.works(ToRelay(candidates[i])) {
          connected := true;
          ConnectedStays(candidates, i + 1, |candidates|, old(cooling), w);
          return;
        }
        cooling := cooling[endpoint := w.failed(i) + COOLDOWN];
      }
    }

    /** handle, once its route is resolved. */
    method Handle(local: Local, target: Node, service: Service, relays: seq<Node>, w: World)
      returns (dials: seq<Attempt>, connected: bool)
      modifies this
      ensures Plan(local, target, service, relays, old(cooling), w) == Outcome(dials, connected, cooling)
    {
      if local.node.role == Subnode {
        var upstream := ToUpstream(local.upstream, local.upstreamEndpoint);
        return [upstream], w.works(upstream);
      }
      dials, connected := [], false;
      if local.node.segment == target.segment && target.role != Subnode {
        dials := [Direct(service)];
        if w.works(Direct(service)) {
          return dials, true;
        }
      }
      var candidates := RelayCandidates(target, relays);
      if |candidates| > 0 {
        var walked, reached := WalkRelays(candidates, w);
        dials := dials + walked;
        if reached {
          return dials, true;
        }
        if target.role == Subnode {
          return dials, false;
        }
      }
      assert candidates == [] ==> dials + [] == dials;
      if CanReverse(local) {
        dials := dials + [Reverse(target.id, service.name)];
        connected := w.works(Reverse(target.id, service.name));
      }
    }
  }

  lemma {:induction false} ConnectedStays(relays: seq<Node>, i: nat, n: nat, cooling: Cooling, w: World)
    requires i <= n <= |relays| && WalkTo(relays, i, cooling, w).connected
    ensures WalkTo(relays, n, cooling, w) == WalkTo(relays, i, cooling, w)
  {
    if i < n {
      ConnectedStays(relays, i, n - 1, cooling, w);
    }
  }

  // ----- the walk over the relays -----

  /** Candidate i is dialed: it was reached and its endpoint was not cooling when looked at. */
  predicate Dialed(relays: seq<Node>, i: nat, cooling: Cooling, w: World)
    requires i < |relays|
  {
    !WalkTo(relays, i, cooling, w).connected && !IsCooling(TableAt(relays, i, cooling, w), EndpointOf(relays[i]), w.looked(i))
  }

  lemma OneLook(relays: seq<Node>, n: nat, cooling: Cooling, w: World)
    requires 0 < n <= |relays|
    ensures var before, after := WalkTo(relays, n - 1, cooling, w), WalkTo(relays, n, cooling, w);
            if Dialed(relays, n - 1, cooling, w)
            then after.dials == before.dials + [ToRelay(relays[n - 1])] && after.connected == w.works(ToRelay(relays[n - 1]))
            else after.dials == before.dials && after.connected == before.connected
  {
  }

  ghost function DialedOf(relays: seq<Node>, n: nat, cooling: Cooling, w: World): set<nat>
    requires n <= |relays|
  {
    set i | 0 <= i < n && Dialed(relays, i, cooling, w)
  }

  lemma DialedNext(relays: seq<Node>, n: nat, cooling: Cooling, w: World)
    requires 0 < n <= |relays|
    ensures DialedOf(relays, n, cooling, w) ==
            DialedOf(relays, n - 1, cooling, w) + if Dialed(relays, n - 1, cooling, w) then {n - 1} else {}
  {
  }

  /** The dials go to exactly the given candidates, in candidate order, once each. */
  ghost predicate ArePicks(picks: seq<nat>, dials: seq<Attempt>, relays: seq<Node>, dialed: set<nat>) {
    && |picks| == |dials|
    && (forall k :: 0 <= k < |picks| ==> picks[k] in dialed && picks[k] < |relays| && dials[k] == ToRelay(relays[picks[k]]))
    && (forall j, k :: 0 <= j < k < |picks| ==> picks[j] < picks[k])
    && (forall i :: i in dialed ==> i in picks)
  }

  lemma PickNext(picks: seq<nat>, dials: seq<Attempt>, relays: seq<Node>, dialed: set<nat>, n: nat)
    requires ArePicks(picks, dials, relays, dialed) && n < |relays| && forall i :: i in dialed ==> i < n
    ensures ArePicks(picks + [n], dials + [ToRelay(relays[n])], relays, dialed + {n})
  {
  }

  lemma {:induction false} WalkPicks(relays: seq<Node>, n: nat, cooling: Cooling, w: World) returns (picks: seq<nat>)
    requires n <= |relays|
    ensures ArePicks(picks, WalkTo(relays, n, cooling, w).dials, relays, DialedOf(relays, n, cooling, w))
  {
    if n == 0 {
      picks := [];
    } else {
      var earlier := WalkPicks(relays, n - 1, cooling, w);
      picks := LookPicks(relays, n - 1, cooling, w, earlier);
    }
  }

  lemma LookPicks(relays: seq<Node>, n: nat, cooling: Cooling, w: World, earlier: seq<nat>) returns (picks: seq<nat>)
    requires n < |relays| && ArePicks(earlier, WalkTo(relays, n, cooling, w).dials, relays, DialedOf(relays, n, cooling, w))
    ensures ArePicks(picks, WalkTo(relays, n + 1, cooling, w).dials, relays, DialedOf(relays, n + 1, cooling, w))
  {
    OneLook(relays, n + 1, cooling, w);
    DialedNext(relays, n + 1, cooling, w);
    var dials, dialed := WalkTo(relays, n, cooling, w).dials, DialedOf(relays, n, cooling, w);
    if Dialed(relays, n, cooling, w) {
      PickNext(earlier, dials, relays, dialed, n);
      picks := earlier + [n];
    } else {
      assert dialed + {} == dialed;
      picks := earlier;
    }
  }

  /** Only the last dial can have worked, and it did exactly if the walk connected. */
  lemma {:induction false} WalkStops(relays: seq<Node>, n: nat, cooling: Cooling, w: World)
    requires n <= |relays|
    ensures var walk := WalkTo(relays, n, cooling, w);
            (forall k :: 0 <= k < |walk.dials| ==> (w.works(walk.dials[k]) <==> walk.connected && k == |walk.dials| - 1)) &&
            (walk.connected ==> walk.dials != [])
  {
    if n > 0 {
      WalkStops(relays, n - 1, cooling, w);
      OneLook(relays, n, cooling, w);
    }
  }

  /** Each reached, non-cooling candidate is dialed once, in order, and only the last dial can have worked. */
  lemma WalkShape(relays: seq<Node>, n: nat, cooling: Cooling, w: World) returns (picks: seq<nat>)
    requires n <= |relays|
    ensures var walk := WalkTo(relays, n, cooling, w);
            ArePicks(picks, walk.dials, relays, DialedOf(relays, n, cooling, w)) &&
            (forall k :: 0 <= k < |walk.dials| ==> (w.works(walk.dials[k]) <==> walk.connected && k == |walk.dials| - 1)) &&
            (walk.connected ==> walk.dials != [])
  {
    picks := WalkPicks(relays, n, cooling, w);
    WalkStops(relays, n, cooling, w);
  }

  predicate Before(a: Attempt, b: Attempt) {
    a.ToRelay? && b.ToRelay? && IsRelay(a.relay) && IsRelay(b.relay) && Precedes(a.relay, b.relay)
  }

  /** Relays are dialed in order of priority and ID, and each of them was a candidate. */
  lemma RelaysInOrder(relays: seq<Node>, n: nat, cooling: Cooling, w: World)
    requires n <= |relays| && AllRelays(relays) && InOrder(relays)
    ensures var dials := WalkTo(relays, n, cooling, w).dials;
            (forall k :: 0 <= k < |dials| ==> dials[k].ToRelay? && dials[k].relay in relays && IsRelay(dials[k].relay)) &&
            (forall j, k :: 0 <= j < k < |dials| ==> Before(dials[j], dials[k]))
  {
    var picks := WalkShape(relays, n, cooling, w);
  }

  /** Marks made later carry later instants. */
  ghost predicate TimesGrow(relays: seq<Node>, w: World) {
    && (forall i: nat, j: nat :: i <= j ==> w.failed(i) <= w.failed(j))
    && (forall i: nat, j: nat :: i < j && i < |relays| && EndpointOf(relays[i]) in w.others(j) ==>
          w.others(j)[EndpointOf(relays[i])] >= w.failed(i) + COOLDOWN)
  }

  /** A failed relay's endpoint is cooling for the next 30 seconds. */
  lemma {:induction false} FailureCools(relays: seq<Node>, i: nat, n: nat, cooling: Cooling, w: World, at: Time)
    requires i < n <= |relays| && Dialed(relays, i, cooling, w) && !w.works(ToRelay(relays[i])) && TimesGrow(relays, w)
    requires at < w.failed(i) + COOLDOWN
    ensures IsCooling(WalkTo(relays, n, cooling, w).cooling, EndpointOf(relays[i]), at)
  {
    if i < n - 1 {
      FailureCools(relays, i, n - 1, cooling, w, at);
    }
  }

  /** Hence no candidate sharing that endpoint is dialed within that time. */
  lemma CooledNotDialed(relays: seq<Node>, i: nat, j: nat, cooling: Cooling, w: World)
    requires i < j < |relays| && Dialed(relays, i, cooling, w) && !w.works(ToRelay(relays[i])) && TimesGrow(relays, w)
    requires EndpointOf(relays[j]) == EndpointOf(relays[i]) && w.looked(j) < w.failed(i) + COOLDOWN
    ensures !Dialed(relays, j, cooling, w)
  {
    FailureCools(relays, i, j, cooling, w, w.looked(j));
  }

  // ----- the whole plan -----

  /** A subnode dials its own upstream and nothing else. */
  lemma SubnodeSource(local: Local, target: Node, service: Service, relays: seq<Node>, cooling: Cooling, w: World)
    requires local.node.role == Subnode
    ensures forall d :: d in Plan(local, target, service, relays, cooling, w).dials <==>
              d == ToUpstream(local.upstream, local.upstreamEndpoint)
  {
  }

  /** For a subnode target every dial goes to the relay it is registered with. */
  lemma SubnodeTarget(peers: seq<Node>, local: Local, targetId: string, name: string, route: Route, cooling: Cooling, w: World)
    requires IsRoute(peers, local.node, targetId, name, route) && route.Resolved?
    requires local.node.role != Subnode && route.target.role == Subnode
    ensures forall d :: d in Plan(local, route.target, route.service, route.relays, cooling, w).dials ==>
              d.ToRelay? && d.relay.id == route.target.upstream && d.relay in peers
  {
    var nodes := peers + [local.node];
    var picks := WalkShape(route.relays, |route.relays|, cooling, w);
    forall d | d in WalkTo(route.relays, |route.relays|, cooling, w).dials
      ensures d.ToRelay? && d.relay.id == route.target.upstream && d.relay in peers
    {
      assert d.relay in route.relays;
      assert d.relay in nodes && Eligible(local.node, route.target, d.relay);
    }
  }

  /** Only the last of these dials may have worked, and it did if the connection was made. */
  ghost predicate StopsAtSuccess(dials: seq<Attempt>, connected: bool, w: World) {
    && (forall k :: 0 <= k < |dials| && w.works(dials[k]) ==> connected && k == |dials| - 1)
    && (connected ==> dials != [] && w.works(dials[|dials| - 1]))
  }

  /** The dials of an ordinary target are a direct try, then the walk, then the reverse path. */
  lemma OrdinaryParts(local: Local, target: Node, service: Service, relays: seq<Node>, cooling: Cooling, w: World)
    returns (direct: seq<Attempt>, walked: seq<Attempt>, tail: seq<Attempt>)
    requires local.node.role != Subnode && target.role != Subnode && target.role != Relay
    ensures Plan(local, target, service, relays, cooling, w).dials == direct + walked + tail
    ensures direct == if local.node.segment == target.segment then [Direct(service)] else []
    ensures walked == [] || walked == WalkTo(relays, |relays|, cooling, w).dials
    ensures tail == [] || (tail == [Reverse(target.id, service.name)] && CanReverse(local))
    ensures StopsAtSuccess(Plan(local, target, service, relays, cooling, w).dials,
                           Plan(local, target, service, relays, cooling, w).connected, w)
  {
    var picks := WalkShape(relays, |relays|, cooling, w);
    var p, walk := Plan(local, target, service, relays, cooling, w), WalkTo(relays, |relays|, cooling, w);
    direct := if local.node.segment == target.segment then [Direct(service)] else [];
    walked, tail := [], [];
    if !(direct != [] && w.works(Direct(service))) {
      walked := walk.dials;
      if !walk.connected && CanReverse(local) {
        tail := [Reverse(target.id, service.name)];
      }
    }
  }

  /**
   For an ordinary target: a direct try exactly in the same segment and first of all, then the
   relays in order, then the reverse path; nothing is tried after a dial that worked.
   */
  lemma OrdinaryTarget(local: Local, target: Node, service: Service, relays: seq<Node>, cooling: Cooling, w: World)
    requires local.node.role != Subnode && target.role != Subnode && target.role != Relay
    requires AllRelays(relays) && InOrder(relays)
    ensures var p := Plan(local, target, service, relays, cooling, w);
            var d := p.dials;
            StopsAtSuccess(d, p.connected, w) &&
            (Direct(service) in d <==> local.node.segment == target.segment) &&
            (forall k :: 0 <= k < |d| && d[k].Direct? ==> k == 0) &&
            (forall k :: 0 <= k < |d| && d[k].Reverse? ==> k == |d| - 1 && CanReverse(local)) &&
            (forall k :: 0 <= k < |d| && d[k].ToRelay? ==> d[k].relay in relays && IsRelay(d[k].relay)) &&
            (forall j, k :: 0 <= j < k < |d| && d[j].ToRelay? && d[k].ToRelay? ==> Before(d[j], d[k]))
  {
    var direct, walked, tail := OrdinaryParts(local, target, service, relays, cooling, w);
    RelaysInOrder(relays, |relays|, cooling, w);
    PartsInOrder(direct, walked, tail, service);
  }

  lemma PartsInOrder(direct: seq<Attempt>, walked: seq<Attempt>, tail: seq<Attempt>, service: Service)
    requires direct == [] || direct == [Direct(service)]
    requires |tail| <= 1 && forall k :: 0 <= k < |tail| ==> tail[k].Reverse?
    requires forall k :: 0 <= k < |walked| ==> walked[k].ToRelay? && IsRelay(walked[k].relay)
    requires forall j, k :: 0 <= j < k < |walked| ==> Before(walked[j], walked[k])
    ensures var d := direct + walked + tail;
            (Direct(service) in d <==> direct != []) &&
            (forall k :: 0 <= k < |d| && d[k].Direct? ==> k == 0) &&
            (forall k :: 0 <= k < |d| && d[k].Reverse? ==> k == |d| - 1 && tail != []) &&
            (forall k :: 0 <= k < |d| && d[k].ToRelay? ==> d[k] in walked && IsRelay(d[k].relay)) &&
            (forall j, k :: 0 <= j < k < |d| && d[j].ToRelay? && d[k].ToRelay? ==> Before(d[j], d[k]))
  {
  }

  /** An ordinary target is given up only when every way was tried or cooling. */
  lemma GivenUp(local: Local, target: Node, service: Service, relays: seq<Node>, cooling: Cooling, w: World, i: nat)
    requires local.node.role != Subnode && target.role != Subnode && target.role != Relay && i < |relays|
    requires !Plan(local, target, service, relays, cooling, w).connected
    ensures var d := Plan(local, target, service, relays, cooling, w).dials;
            (ToRelay(relays[i]) in d || IsCooling(TableAt(relays, i, cooling, w), EndpointOf(relays[i]), w.looked(i))) &&
            (CanReverse(local) ==> Reverse(target.id, service.name) in d)
  {
    var picks := WalkShape(relays, |relays|, cooling, w);
    if WalkTo(relays, i, cooling, w).connected {
      ConnectedStays(relays, i, |relays|, cooling, w);
    }
    if Dialed(relays, i, cooling, w) {
      assert i in DialedOf(relays, |relays|, cooling, w);
      var k :| 0 <= k < |picks| && picks[k] == i;
      assert WalkTo(relays, |relays|, cooling, w).dials[k] == ToRelay(relays[i]);
    }
  }

  // ----- the same in plain terms -----

  /** The endpoint is marked beyond this instant. */
  predicate Marked(table: Cooling, endpoint: string, now: Time) {
    endpoint in table && table[endpoint] > now
  }

  /** Whether a relay is dialed: nothing before it worked, and its endpoint is not marked when it is looked at. */
  lemma {:induction false} DialedMeans(relays: seq<Node>, i: nat, cooling: Cooling, w: World)
    requires i < |relays| && IsRelay(relays[i])
    ensures Dialed(relays, i, cooling, w) <==>
            !WorkedBefore(relays, i, cooling, w) &&
            !Marked(TableAt(relays, i, cooling, w), relays[i].relay.value.endpoint, w.looked(i))
  {
    ConnectedMeans(relays, i, cooling, w);
  }

  ghost predicate WorkedBefore(relays: seq<Node>, i: nat, cooling: Cooling, w: World)
    requires i <= |relays|
  {
    exists k: nat :: k < i && Dialed(relays, k, cooling, w) && w.works(ToRelay(relays[k]))
  }

  lemma WorkedNext(relays: seq<Node>, n: nat, cooling: Cooling, w: World)
    requires n < |relays|
    ensures WorkedBefore(relays, n + 1, cooling, w) <==>
            WorkedBefore(relays, n, cooling, w) || (Dialed(relays, n, cooling, w) && w.works(ToRelay(relays[n])))
  {
  }

  lemma {:induction false} ConnectedMeans(relays: seq<Node>, n: nat, cooling: Cooling, w: World)
    requires n <= |relays|
    ensures WalkTo(relays, n, cooling, w).connected <==> WorkedBefore(relays, n, cooling, w)
  {
    if n > 0 {
      ConnectedMeans(relays, n - 1, cooling, w);
      MeansNext(relays, n - 1, cooling, w);
    }
  }

  lemma MeansNext(relays: seq<Node>, n: nat, cooling: Cooling, w: World)
    requires n < |relays| && (WalkTo(relays, n, cooling, w).connected <==> WorkedBefore(relays, n, cooling, w))
    ensures WalkTo(relays, n + 1, cooling, w).connected <==> WorkedBefore(relays, n + 1, cooling, w)
  {
    ConnectedNext(relays, n, cooling, w);
    WorkedNext(relays, n, cooling, w);
  }

  lemma ConnectedNext(relays: seq<Node>, n: nat, cooling: Cooling, w: World)
    requires n < |relays|
    ensures WalkTo(relays, n + 1, cooling, w).connected <==>
            WalkTo(relays, n, cooling, w).connected || (Dialed(relays, n, cooling, w) && w.works(ToRelay(relays[n])))
  {
    OneLook(relays, n + 1, cooling, w);
  }

  /** A mark was there before, was made by another connection, or is 30 seconds from a failed dial. */
  ghost predicate MarkExplained(relays: seq<Node>, n: nat, cooling: Cooling, w: World, e: string, until: Time)
    requires n <= |relays|
  {
    (e in cooling && cooling[e] == until) || exists i: nat :: i < n && MarkMade(relays, i, cooling, w, e, until)
  }

  predicate MarkMade(relays: seq<Node>, i: nat, cooling: Cooling, w: World, e: string, until: Time)
    requires i < |relays|
  {
    (e in w.others(i) && w.others(i)[e] == until) ||
    (Dialed(relays, i, cooling, w) && !w.works(ToRelay(relays[i])) && EndpointOf(relays[i]) == e && until == w.failed(i) + 30 * SECOND)
  }

  lemma {:induction false} MarksMean(relays: seq<Node>, n: nat, cooling: Cooling, w: World, e: string)
    requires n <= |relays| && e in WalkTo(relays, n, cooling, w).cooling
    ensures MarkExplained(relays, n, cooling, w, e, WalkTo(relays, n, cooling, w).cooling[e])
  {
    if n > 0 {
      var before, after := WalkTo(relays, n - 1, cooling, w).cooling, WalkTo(relays, n, cooling, w).cooling;
      if !MarkMade(relays, n - 1, cooling, w, e, after[e]) {
        assert e in before && before[e] == after[e];
        MarksMean(relays, n - 1, cooling, w, e);
      }
    }
  }

  /** The target relay may be dialed at the only look there is. */
  predicate TargetOpen(target: Node, cooling: Cooling, w: World) {
    target.relay.Some? && !Marked(cooling + w.others(0), target.relay.value.endpoint, w.looked(0))
  }

  /** The dials for a relay that is itself the target, part by part. */
  ghost predicate TargetParts(local: Local, target: Node, service: Service, cooling: Cooling, w: World, dials: seq<Attempt>, connected: bool) {
    var near := local.node.segment == target.segment;
    var open := TargetOpen(target, cooling, w);
    if near && w.works(Direct(service)) then dials == [Direct(service)] && connected
    else
      var direct := if near then [Direct(service)] else [];
      var relay := if open then [ToRelay(target)] else [];
      if open && w.works(ToRelay(target)) then dials == direct + relay && connected
      else if ReverseReady(local) then
        dials == direct + relay + [Reverse(target.id, service.name)] && connected == w.works(Reverse(target.id, service.name))
      else dials == direct + relay && !connected
  }

  /** A relay as target: a direct try in its segment, then the relay itself unless it is marked, then the reverse path. */
  lemma RelayTarget(local: Local, target: Node, service: Service, relays: seq<Node>, cooling: Cooling, w: World)
    requires local.node.role != Subnode && target.role == Relay
    ensures var p := Plan(local, target, service, relays, cooling, w);
            TargetParts(local, target, service, cooling, w, p.dials, p.connected)
  {
    ReverseMeans(local);
    if target.relay.Some? {
      TargetWalk(target, cooling, w);
    } else {
      assert WalkTo([], 0, cooling, w) == Walk([], cooling, false);
    }
  }

  lemma TargetWalk(target: Node, cooling: Cooling, w: World)
    requires target.relay.Some?
    ensures var walk, open := WalkTo([target], 1, cooling, w), TargetOpen(target, cooling, w);
            walk.dials == (if open then [ToRelay(target)] else []) && walk.connected == (open && w.works(ToRelay(target)))
  {
    assert WalkTo([target], 0, cooling, w) == Walk([], cooling, false);
    OneLook([target], 1, cooling, w);
  }

  /** Only an advertised relay with coordinator credentials can be dialed back. */
  predicate ReverseReady(local: Local) {
    local.node.role == Relay && local.node.relay.Some? && local.node.relay.value.endpoint != "" && local.coordinatorReady
  }

  lemma ReverseMeans(local: Local)
    ensures CanReverse(local) <==> ReverseReady(local)
  {
  }
}
