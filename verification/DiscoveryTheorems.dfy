/** What revisions and cached peers mean in every run, and the two steps that would break it. */
module DiscoveryTheorems {
  import opened Prelude
  import opened Topology
  import opened Candidates
  import opened NodeTable
  import opened NodeMeaning
  import opened Discovery
  import opened DiscoveryProofs

  /** Equal revisions mean equal node tables, up to LastSeen and lease ends. */
  lemma RevisionDeterminesTopology(trace: seq<Sys>, events: seq<Event>, i: nat, j: nat)
    requires IsRun(trace, events) && i < |trace| && j < |trace|
    requires trace[i].table.revision == trace[j].table.revision
    ensures Stripped(trace[i].table.nodes) == Stripped(trace[j].table.nodes)
  {
    RunOk(trace, events, i);
    RunOk(trace, events, j);
    if i <= j {
      SeenOnlyGrows(trace, events, i, j);
    } else {
      SeenOnlyGrows(trace, events, j, i);
    }
  }

  /**
   Whenever a node's recorded revision, or the one its worker holds, is the coordinator's, its
   cached peers are exactly what the coordinator would show it now, up to those fields.
   */
  lemma CacheCoherent(trace: seq<Sys>, events: seq<Event>, k: nat, id: string)
    requires IsRun(trace, events) && k < |trace| && id in trace[k].workers && id in trace[k].table.nodes
    requires var w := trace[k].workers[id];
             w.recorded == trace[k].table.revision || w.current == trace[k].table.revision
    ensures Lists(StripAll(trace[k].workers[id].peers), PeerView(Stripped(trace[k].table.nodes), id))
  {
    RunOk(trace, events, k);
    var s := trace[k];
    CoherentNow(s.table, s.seen, s.workers[id], id);
  }

  lemma CoherentNow(t: Table, seen: Snapshots, w: Worker, id: string)
    requires SeenOk(t, seen) && WorkerOk(w, seen, id) && id in t.nodes
    requires w.recorded == t.revision || w.current == t.revision
    ensures Lists(StripAll(w.peers), PeerView(Stripped(t.nodes), id))
  {
    assert w.savedAt == t.revision;
    assert Shows(w.peers, Stripped(t.nodes), id);
  }

  /**
   Under the coordinator's revision every cached peer of the node's own segment is the stored node,
   addresses included, up to leases and LastSeen; of a peer of another segment only the addresses are
   missing.
   */
  lemma CacheShowsAddresses(trace: seq<Sys>, events: seq<Event>, k: nat, id: string, i: nat)
    requires IsRun(trace, events) && k < |trace| && id in trace[k].workers && id in trace[k].table.nodes
    requires trace[k].workers[id].recorded == trace[k].table.revision && i < |trace[k].workers[id].peers|
    ensures var shown, nodes := trace[k].workers[id].peers[i], trace[k].table.nodes;
            shown.id in nodes &&
            if nodes[shown.id].segment == nodes[id].segment then SameUpToLeases(shown, nodes[shown.id])
            else SameUpToLeases(shown, nodes[shown.id].(services := shown.services)) && NoAddresses(shown, nodes[shown.id])
  {
    CacheCoherent(trace, events, k, id);
    ShownCached(trace[k].table.nodes, id, trace[k].workers[id].peers, i);
  }

  /** The same services, with nothing to dial. */
  ghost predicate NoAddresses(shown: Node, n: Node) {
    |shown.services| == |n.services| &&
    forall j :: 0 <= j < |n.services| ==> SameService(shown.services[j], n.services[j].(candidates := []))
  }

  lemma ShownCached(nodes: map<string, Node>, id: string, peers: seq<Node>, i: nat)
    requires id in nodes && Lists(StripAll(peers), PeerView(Stripped(nodes), id)) && i < |peers|
    ensures var shown := peers[i];
            shown.id in nodes &&
            if nodes[shown.id].segment == nodes[id].segment then SameUpToLeases(shown, nodes[shown.id])
            else SameUpToLeases(shown, nodes[shown.id].(services := shown.services)) && NoAddresses(shown, nodes[shown.id])
  {
    var shown := peers[i];
    assert StripAll(peers)[i] == Strip(shown);
    var n := nodes[shown.id];
    ReleasedStrip(nodes[id], n);
    StripMeans(shown, Released(nodes[id], n));
    if n.segment != nodes[id].segment {
      assert SameUpToLeases(shown, n.(services := WithoutCandidates(n.services)));
      StripMeans(shown, shown);
    }
  }

  /** Cached peers are never torn: once saved they are one view the coordinator had, at savedAt. */
  lemma CacheIsASnapshot(trace: seq<Sys>, events: seq<Event>, k: nat, id: string)
    requires IsRun(trace, events) && k < |trace| && id in trace[k].workers && trace[k].workers[id].savedAt > 0
    ensures exists j: nat :: j <= k && IsViewAt(trace[j], id, trace[k].workers[id])
  {
    var w := trace[k].workers[id];
    RunOk(trace, events, k);
    var j := SeenInRun(trace, events, k, w.savedAt);
    RunOk(trace, events, j);
    SeenOnlyGrows(trace, events, j, k);
    assert trace[k].seen[w.savedAt] == Stripped(trace[j].table.nodes);
    assert IsViewAt(trace[j], id, w);
  }

  /** The cache is what the coordinator showed the node in this state, which is no older than what the node recorded. */
  ghost predicate IsViewAt(s: Sys, id: string, w: Worker) {
    s.table.revision == w.savedAt && w.recorded <= w.savedAt && w.current <= w.savedAt &&
    id in s.table.nodes && Lists(StripAll(w.peers), PeerView(Stripped(s.table.nodes), id))
  }

  /** A recorded snapshot is of a revision the table really had. */
  lemma {:induction false} SeenInRun(trace: seq<Sys>, events: seq<Event>, k: nat, r: nat) returns (j: nat)
    requires IsRun(trace, events) && k < |trace| && r in trace[k].seen
    ensures j <= k && trace[j].table.revision == r
  {
    if trace[k].table.revision == r {
      j := k;
    } else if k > 0 {
      SeenDomain(trace[k - 1], events[k - 1]);
      j := SeenInRun(trace, events, k - 1, r);
    } else {
      j := 0;
    }
  }

  lemma SeenDomain(s: Sys, e: Event)
    requires Enabled(s, e)
    ensures Apply(s, e).seen.Keys <= s.seen.Keys + {Apply(s, e).table.revision}
  {
  }

  /** A published revision waits in the slot or is being fetched, unless it was applied or its fetch failed. */
  lemma NoRevisionMissed(trace: seq<Sys>, events: seq<Event>, k: nat, id: string)
    requires IsRun(trace, events) && k < |trace| && id in trace[k].workers
    requires var w := trace[k].workers[id]; w.latest.Some? && w.slot == None && w.fetch == Idle && !w.failed
    ensures trace[k].workers[id].current == trace[k].workers[id].latest.value
  {
    RunOk(trace, events, k);
  }

  /** Direct addresses stay in their segment: a node of another segment is shown none of them. */
  lemma AddressesStayInSegment(nodes: map<string, Node>, id: string, peers: seq<Node>, i: nat, j: nat)
    requires id in nodes && IsListing(peers, PeerView(nodes, id)) && i < |peers| && j < |peers[i].services|
    requires peers[i].segment != nodes[id].segment
    ensures peers[i].services[j].candidates == []
  {
  }

  /** And the listing leaves out nobody: a node is listed exactly if it shares the network and is another node. */
  lemma ListingComplete(nodes: map<string, Node>, id: string, peers: seq<Node>, peer: string)
    requires id in nodes && IdsOk(Table(nodes, 0)) && IsListing(peers, PeerView(nodes, id))
    ensures (exists i :: 0 <= i < |peers| && peers[i].id == peer) <==>
            peer in nodes && peer != id && nodes[peer].network == nodes[id].network
  {
    if peer in PeerView(nodes, id) {
      var i :| 0 <= i < |peers| && peers[i] == PeerView(nodes, id)[peer];
    }
  }

  // ----- what would break it -----

  /** revokeNode as the table sees it: the node goes, the revision stays. */
  function Revoked(t: Table, id: string): Table {
    t.(nodes := t.nodes - {id})
  }

  /** A revocation keeps coherence exactly when the node was not in the table. */
  lemma RevocationBreaksCoherence(t: Table, id: string)
    ensures Revoked(t, id).revision == t.revision
    ensures Stripped(Revoked(t, id).nodes) == Stripped(t.nodes) <==> id !in t.nodes
  {
    if id in t.nodes {
      assert id in Stripped(t.nodes);
      assert id !in Stripped(Revoked(t, id).nodes);
    }
  }

  /** Hence a coherent cache stays coherent exactly if it did not show the revoked node. */
  lemma RevocationStalesCache(w: Worker, t: Table, id: string, gone: string)
    requires IdsOk(t) && id in t.nodes && id != gone && w.recorded == t.revision && Coherent(w, t, id)
    ensures Coherent(w, Revoked(t, gone), id) <==> !ShownTo(t.nodes, id, gone)
  {
    ViewWithout(t, id, gone);
    var before, after := PeerView(Stripped(t.nodes), id), PeerView(Stripped(Revoked(t, gone).nodes), id);
    if Coherent(w, Revoked(t, gone), id) {
      ListsUnique(StripAll(w.peers), before, after);
    }
  }

  lemma ViewWithout(t: Table, id: string, gone: string)
    requires IdsOk(t) && id in t.nodes && id != gone
    ensures PeerView(Stripped(Revoked(t, gone).nodes), id) == PeerView(Stripped(t.nodes), id) - {gone}
    ensures gone in PeerView(Stripped(t.nodes), id) <==> ShownTo(t.nodes, id, gone)
    ensures PeerView(Stripped(t.nodes), id) - {gone} == PeerView(Stripped(t.nodes), id) <==> !ShownTo(t.nodes, id, gone)
    ensures forall peer :: peer in PeerView(Stripped(t.nodes), id) ==> PeerView(Stripped(t.nodes), id)[peer].id == peer
  {
  }

  /** A list is the view of at most one table. */
  lemma ListsUnique(peers: seq<Node>, a: map<string, Node>, b: map<string, Node>)
    requires Lists(peers, a) && Lists(peers, b)
    requires (forall id :: id in a ==> a[id].id == id) && (forall id :: id in b ==> b[id].id == id)
    ensures a == b
  {
    ListsIncluded(peers, a, b);
    ListsIncluded(peers, b, a);
  }

  lemma ListsIncluded(peers: seq<Node>, a: map<string, Node>, b: map<string, Node>)
    requires Lists(peers, a) && Lists(peers, b) && forall id :: id in a ==> a[id].id == id
    ensures forall id :: id in a ==> id in b && b[id] == a[id]
  {
    forall id | id in a ensures id in b && b[id] == a[id] {
      var i :| 0 <= i < |peers| && peers[i] == a[id];
    }
  }

  ghost predicate Coherent(w: Worker, t: Table, id: string) {
    w.recorded == t.revision && id in t.nodes ==> Lists(StripAll(w.peers), PeerView(Stripped(t.nodes), id))
  }
}
