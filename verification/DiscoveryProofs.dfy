/** The invariant of discovery is kept by every step. */
module DiscoveryProofs {
  import opened Prelude
  import opened Topology
  import opened Candidates
  import opened NodeTable
  import opened Discovery

  // ----- leases do not matter to what a peer is shown -----

  lemma ReleasedStrip(requester: Node, n: Node)
    ensures Strip(Released(requester, n)) == Released(Strip(requester), Strip(n))
  {
    if requester.segment != n.segment {
      var a, b := StripServices(WithoutCandidates(n.services)), WithoutCandidates(StripServices(n.services));
      forall i | 0 <= i < |a| ensures a[i] == b[i] {
        assert StripCandidates([]) == [];
      }
      assert a == b;
    }
  }

  lemma ListingShows(nodes: map<string, Node>, id: string, peers: seq<Node>)
    requires id in nodes && IsListing(peers, PeerView(nodes, id))
    ensures Shows(peers, Stripped(nodes), id)
  {
    var view, plain := PeerView(nodes, id), PeerView(Stripped(nodes), id);
    var stripped := StripAll(peers);
    forall i | 0 <= i < |stripped| ensures stripped[i].id in plain && plain[stripped[i].id] == stripped[i] {
      ReleasedStrip(nodes[id], nodes[peers[i].id]);
    }
    forall peer | peer in plain ensures plain[peer] in stripped {
      ReleasedStrip(nodes[id], nodes[peer]);
      assert view[peer] in peers;
      var i :| 0 <= i < |peers| && peers[i] == view[peer];
      assert stripped[i] == plain[peer];
    }
  }

  // ----- the table -----

  /** Every critical section either advances the revision or leaves the topology as it was. */
  ghost predicate Follows(t: Table, n: Table) {
    n.revision >= t.revision && (n.revision == t.revision ==> Stripped(n.nodes) == Stripped(t.nodes)) &&
    (IdsOk(t) ==> IdsOk(n))
  }

  lemma HeartbeatFollows(t: Table, n: Node, order: seq<string>, now: Time)
    requires IsOrder(order, Register(t, n, now).nodes.Keys)
    ensures Follows(t, Sweep(Register(t, n, now), order, now))
  {
    RegisterAdvances(t, n, now);
    SweepAdvances(Register(t, n, now), order, now);
    SweepEffect(Register(t, n, now), order, now);
  }

  lemma SweepFollows(t: Table, order: seq<string>, now: Time)
    requires IsOrder(order, t.nodes.Keys)
    ensures Follows(t, Sweep(t, order, now))
  {
    SweepAdvances(t, order, now);
    SweepEffect(t, order, now);
  }

  lemma SeenGrows(t: Table, n: Table, seen: Snapshots)
    requires SeenOk(t, seen) && Follows(t, n)
    ensures SeenOk(n, seen[n.revision := Stripped(n.nodes)]) && Extends(seen, seen[n.revision := Stripped(n.nodes)])
  {
  }

  lemma TableStep(s: Sys, e: Event)
    requires SeenOk(s.table, s.seen) && Enabled(s, e)
    ensures SeenOk(Apply(s, e).table, Apply(s, e).seen) && Extends(s.seen, Apply(s, e).seen)
    ensures Follows(s.table, Apply(s, e).table)
  {
    match e
    case Heartbeat(n, order, now) =>
      HeartbeatFollows(s.table, n, order, now);
      SeenGrows(s.table, Apply(s, e).table, s.seen);
    case OtherSweep(order, now) =>
      SweepFollows(s.table, order, now);
      SeenGrows(s.table, Apply(s, e).table, s.seen);
    case Serve(_, order, now, _) =>
      SweepFollows(s.table, order, now);
      SeenGrows(s.table, Apply(s, e).table, s.seen);
    case ServeCommand(_, order, now, _) =>
      SweepFollows(s.table, order, now);
      SeenGrows(s.table, Apply(s, e).table, s.seen);
    case _ =>
  }

  // ----- the workers -----

  lemma WorkerGrows(w: Worker, a: Snapshots, b: Snapshots, id: string)
    requires WorkerOk(w, a, id) && Extends(a, b)
    ensures WorkerOk(w, b, id)
  {
  }

  lemma ServedReply(t: Table, seen: Snapshots, id: string, after: nat, nodes: seq<Node>)
    requires SeenOk(t, seen) && ServesFrom(t, id, after, nodes)
    ensures ReplyOk(Reached(t, after, nodes), seen, id)
  {
    if after != t.revision {
      ListingShows(t.nodes, id, nodes);
    }
  }

  lemma ServedWorker(w: Worker, t: Table, seen: Snapshots, id: string, nodes: seq<Node>)
    requires SeenOk(t, seen) && WorkerOk(w, seen, id) && w.fetch.Asking? && ServesFrom(t, id, w.fetch.after, nodes)
    ensures WorkerOk(w.(fetch := Answered(w.fetch.expected, Reached(t, w.fetch.after, nodes))), seen, id)
  {
    ServedReply(t, seen, id, w.fetch.after, nodes);
  }

  lemma ReceivedWorker(w: Worker, seen: Snapshots, id: string, filesOk: bool)
    requires WorkerOk(w, seen, id) && w.fetch.Answered?
    ensures WorkerOk(Received(w, filesOk), seen, id)
  {
  }

  lemma LocalSteps(w: Worker, seen: Snapshots, id: string, flag: bool, r: nat)
    requires WorkerOk(w, seen, id)
    ensures WorkerOk(w.(slot := Some(r), latest := Some(r)), seen, id)
    ensures w.slot.Some? && w.fetch == Idle ==> WorkerOk(Taken(w), seen, id)
    ensures WorkerOk(GiveUp(w), seen, id)
    ensures w.fetch.Saved? ==> WorkerOk(Recorded(w, flag), seen, id)
    ensures WorkerOk(Restarted(w, flag), seen, id)
  {
  }

  lemma SavedByCommand(w: Worker, seen: Snapshots, id: string, reply: Reply)
    requires WorkerOk(w, seen, id) && ReplyOk(reply, seen, id) && reply.changed && NotOlder(w, reply)
    ensures WorkerOk(w.(peers := reply.nodes, savedAt := reply.revision), seen, id)
  {
  }

  lemma FreshOk(s: Sys, id: string)
    requires SysOk(s)
    ensures WorkerOk(WorkerOf(s, id), s.seen, id) && SlotOk(WorkerOf(s, id))
  {
  }

  /** The node whose worker a step may change. */
  function Changes(e: Event): Option<string> {
    match e
    case Heartbeat(_, _, _) => None
    case OtherSweep(_, _) => None
    case ServeCommand(_, _, _, _) => None
    case Publish(id, _) => Some(id)
    case Begin(id) => Some(id)
    case Serve(id, _, _, _) => Some(id)
    case Fail(id) => Some(id)
    case Receive(id, _) => Some(id)
    case Record(id, _) => Some(id)
    case Crash(id, _) => Some(id)
    case CommandSave(id, _) => Some(id)
  }

  lemma WorkerFrame(s: Sys, e: Event)
    requires Enabled(s, e)
    ensures var n := Apply(s, e);
            match Changes(e)
            case None => n.workers == s.workers
            case Some(id) => id in n.workers && n.workers == s.workers[id := n.workers[id]]
  {
  }

  lemma ChangedWorker(s: Sys, e: Event, id: string)
    requires SysOk(s) && Enabled(s, e) && Changes(e) == Some(id)
    requires SeenOk(Apply(s, e).table, Apply(s, e).seen) && Extends(s.seen, Apply(s, e).seen)
    ensures id in Apply(s, e).workers && WorkerOk(Apply(s, e).workers[id], Apply(s, e).seen, id)
  {
    FreshOk(s, id);
    WorkerGrows(WorkerOf(s, id), s.seen, Apply(s, e).seen, id);
    if e.Serve? {
      ServedWorker(WorkerOf(s, id), Apply(s, e).table, Apply(s, e).seen, id, e.nodes);
    } else if e.CommandSave? {
      SavedByCommand(WorkerOf(s, id), s.seen, id, e.reply);
    } else {
      LocalWorker(s, e, id);
    }
  }

  lemma LocalWorker(s: Sys, e: Event, id: string)
    requires Enabled(s, e) && Changes(e) == Some(id) && !e.Serve? && !e.CommandSave?
    requires WorkerOk(WorkerOf(s, id), s.seen, id)
    ensures id in Apply(s, e).workers && WorkerOk(Apply(s, e).workers[id], s.seen, id)
  {
    var w := WorkerOf(s, id);
    match e
    case Publish(_, r) => LocalSteps(w, s.seen, id, true, r);
    case Receive(_, filesOk) => ReceivedWorker(w, s.seen, id, filesOk);
    case Record(_, written) => LocalSteps(w, s.seen, id, written, 0);
    case Crash(_, statusRead) => LocalSteps(w, s.seen, id, statusRead, 0);
    case Begin(_) => LocalSteps(w, s.seen, id, true, 0);
    case Fail(_) => LocalSteps(w, s.seen, id, true, 0);
  }

  lemma SlotStep(s: Sys, e: Event, id: string)
    requires Enabled(s, e) && Changes(e) == Some(id) && SlotOk(WorkerOf(s, id))
    ensures id in Apply(s, e).workers && SlotOk(Apply(s, e).workers[id])
  {
  }

  lemma WorkersStep(s: Sys, e: Event)
    requires SysOk(s) && Enabled(s, e)
    requires SeenOk(Apply(s, e).table, Apply(s, e).seen) && Extends(s.seen, Apply(s, e).seen)
    ensures var n := Apply(s, e);
            forall id :: id in n.workers ==> WorkerOk(n.workers[id], n.seen, id) && SlotOk(n.workers[id])
  {
    var n := Apply(s, e);
    WorkerFrame(s, e);
    forall id | id in n.workers ensures WorkerOk(n.workers[id], n.seen, id) && SlotOk(n.workers[id]) {
      FreshOk(s, id);
      if Changes(e) == Some(id) {
        ChangedWorker(s, e, id);
        SlotStep(s, e, id);
      } else {
        WorkerGrows(s.workers[id], s.seen, n.seen, id);
      }
    }
  }

  lemma ExtraStep(s: Sys, e: Event)
    requires SysOk(s) && Enabled(s, e)
    requires SeenOk(Apply(s, e).table, Apply(s, e).seen) && Extends(s.seen, Apply(s, e).seen)
    ensures forall id, reply :: id in Apply(s, e).extra && reply in Apply(s, e).extra[id] ==> ReplyOk(reply, Apply(s, e).seen, id)
  {
    var n := Apply(s, e);
    forall id, reply | id in n.extra && reply in n.extra[id] ensures ReplyOk(reply, n.seen, id) {
      if id in s.extra && reply in s.extra[id] {
        assert ReplyOk(reply, s.seen, id);
      } else {
        ServedReply(n.table, n.seen, id, 0, e.nodes);
      }
    }
  }

  lemma StepOk(s: Sys, e: Event)
    requires SysOk(s) && Enabled(s, e)
    ensures SysOk(Apply(s, e)) && Extends(s.seen, Apply(s, e).seen) && Follows(s.table, Apply(s, e).table)
  {
    TableStep(s, e);
    WorkersStep(s, e);
    ExtraStep(s, e);
  }

  lemma {:induction false} RunOk(trace: seq<Sys>, events: seq<Event>, k: nat)
    requires IsRun(trace, events) && k < |trace|
    ensures SysOk(trace[k])
  {
    if k > 0 {
      RunOk(trace, events, k - 1);
      StepOk(trace[k - 1], events[k - 1]);
    }
  }

  lemma StepGrows(trace: seq<Sys>, events: seq<Event>, j: nat)
    requires IsRun(trace, events) && j < |events|
    ensures Later(trace[j], trace[j + 1])
  {
    RunOk(trace, events, j);
    StepOk(trace[j], events[j]);
  }

  /** Nothing seen is forgotten and the revision never goes back. */
  ghost predicate Later(s: Sys, n: Sys) {
    Extends(s.seen, n.seen) && s.table.revision <= n.table.revision
  }

  ghost predicate EachLater(trace: seq<Sys>) {
    forall i, j :: 0 <= i < |trace| && 0 <= j < |trace| && j == i + 1 ==> Later(trace[i], trace[j])
  }

  lemma {:induction false} LaterAlong(trace: seq<Sys>, i: nat, j: nat)
    requires EachLater(trace) && i <= j < |trace|
    ensures Later(trace[i], trace[j])
  {
    if i < j {
      LaterAlong(trace, i, j - 1);
      LaterTransitive(trace[i], trace[j - 1], trace[j]);
    }
  }

  lemma LaterTransitive(a: Sys, b: Sys, c: Sys)
    requires Later(a, b) && Later(b, c)
    ensures Later(a, c)
  {
  }

  lemma SeenOnlyGrows(trace: seq<Sys>, events: seq<Event>, i: nat, j: nat)
    requires IsRun(trace, events) && i <= j < |trace|
    ensures Extends(trace[i].seen, trace[j].seen) && trace[i].table.revision <= trace[j].table.revision
  {
    forall k, n | 0 <= k < |trace| && 0 <= n < |trace| && n == k + 1 ensures Later(trace[k], trace[n]) {
      StepGrows(trace, events, k);
    }
    LaterAlong(trace, i, j);
  }
}
