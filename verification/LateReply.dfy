/**
 A syncDiscovery command saves its reply without looking at what the node's worker has recorded
 since it asked. This is when that is safe, when it is not, and what the command could check.
 */
module LateReply {
  import opened Prelude
  import opened Topology
  import opened Candidates
  import opened NodeTable
  import opened Discovery
  import opened DiscoveryProofs
  import opened DiscoveryTheorems

  /** The save as the source makes it. */
  function SavedBlindly(w: Worker, reply: Reply): Worker {
    w.(peers := reply.nodes, savedAt := reply.revision)
  }

  /** A reply that a command of this node was given and that carries nodes. */
  ghost predicate Given(s: Sys, id: string, reply: Reply) {
    id in s.extra && reply in s.extra[id] && reply.changed
  }

  /**
   Under a current recorded revision, the save keeps the cache coherent exactly if the node would be
   shown now what it was shown at the reply's revision.
   */
  lemma CommandSaveCoherent(trace: seq<Sys>, events: seq<Event>, k: nat, id: string, reply: Reply)
    requires IsRun(trace, events) && k < |trace| && Given(trace[k], id, reply)
    requires id in trace[k].table.nodes && WorkerOf(trace[k], id).recorded == trace[k].table.revision
    ensures reply.revision in trace[k].seen && id in trace[k].seen[reply.revision]
    ensures Coherent(SavedBlindly(WorkerOf(trace[k], id), reply), trace[k].table, id) <==>
            PeerView(trace[k].seen[reply.revision], id) == PeerView(Stripped(trace[k].table.nodes), id)
  {
    RunOk(trace, events, k);
    assert ReplyOk(reply, trace[k].seen, id);
    SavedShows(WorkerOf(trace[k], id), trace[k].table, trace[k].seen, id, reply);
  }

  lemma SavedShows(w: Worker, t: Table, seen: Snapshots, id: string, reply: Reply)
    requires SeenOk(t, seen) && ReplyOk(reply, seen, id) && reply.changed && id in t.nodes && w.recorded == t.revision
    ensures Coherent(SavedBlindly(w, reply), t, id) <==>
            PeerView(seen[reply.revision], id) == PeerView(Stripped(t.nodes), id)
  {
    var earlier, now := PeerView(seen[reply.revision], id), PeerView(Stripped(t.nodes), id);
    if Coherent(SavedBlindly(w, reply), t, id) {
      ListsUnique(StripAll(reply.nodes), earlier, now);
    }
  }

  /** The guard of the runs is exact: with it, and only with it, the save keeps the worker's invariant. */
  lemma GuardIsExact(w: Worker, seen: Snapshots, id: string, reply: Reply)
    requires WorkerOk(w, seen, id) && ReplyOk(reply, seen, id) && reply.changed
    ensures WorkerOk(SavedBlindly(w, reply), seen, id) <==> NotOlder(w, reply)
  {
  }

  /**
   The guard reads the worker's memory, but a command could check enough of it: a reply no older than
   the one peers.json was written from is safe. The file would have to carry that revision.
   */
  lemma CacheRevisionSuffices(w: Worker, seen: Snapshots, id: string, reply: Reply)
    requires WorkerOk(w, seen, id) && reply.revision >= w.savedAt
    ensures NotOlder(w, reply)
  {
  }

  /** The revision in the status file would not do: the worker may be about to record a newer one. */
  lemma StatusFileNotEnough(w: Worker, reply: Reply)
    requires w.fetch.Saved? && w.recorded <= reply.revision < w.fetch.expected
    ensures var after := Recorded(SavedBlindly(w, reply), true); after.recorded > after.savedAt
  {
  }

  // ----- a run in which a late reply does harm -----

  const A := Node("a", "a", Client, "seg", "net", "key", [], None, "", 0)
  const B := Node("b", "b", Client, "seg", "net", "key", [], None, "", 0)
  const ALONE := Table(map["a" := A], 1)
  const BOTH := Table(map["a" := A, "b" := B], 2)
  const OLD := Reply(1, true, [])
  const NEW := Reply(2, true, [B])

  /** The worker of node a while it fetches revision 2. */
  function Fetching(fetch: Fetch): Worker {
    Worker(None, Some(2), 0, 0, [], 0, fetch, false)
  }

  const SAVED := Worker(None, Some(2), 0, 0, [B], 2, Saved(2), false)
  const CURRENT := Worker(None, Some(2), 2, 2, [B], 2, Idle, false)

  ghost const SEEN_ALONE: Snapshots := map[0 := map[], 1 := Stripped(ALONE.nodes)]
  ghost const SEEN_BOTH: Snapshots := SEEN_ALONE[2 := Stripped(BOTH.nodes)]

  ghost function Alone(extra: map<string, set<Reply>>): Sys {
    Sys(ALONE, map[], SEEN_ALONE, extra)
  }

  ghost function Both(workers: map<string, Worker>): Sys {
    Sys(BOTH, workers, SEEN_BOTH, map["a" := {OLD}])
  }

  ghost function With(w: Worker): Sys {
    Both(map["a" := w])
  }

  ghost predicate Leads(s: Sys, e: Event, n: Sys) {
    Enabled(s, e) && Apply(s, e) == n
  }

  lemma Undisturbed(t: Table, order: seq<string>)
    requires (t == ALONE && order == ["a"]) || (t == BOTH && order == ["a", "b"])
    ensures IsOrder(order, t.nodes.Keys) && Sweep(t, order, 0) == t
  {
    forall id | id in t.nodes ensures !Disturbs(t.nodes[id], 0) {
      assert SweptServices([], 0) == [];
    }
    NothingToSweep(t, order, 0);
  }

  lemma Joins()
    ensures Leads(Init(), Heartbeat(A, ["a"], 0), Alone(map[]))
    ensures Leads(Alone(map["a" := {OLD}]), Heartbeat(B, ["a", "b"], 0), Both(map[]))
  {
    Undisturbed(ALONE, ["a"]);
    Undisturbed(BOTH, ["a", "b"]);
    assert Register(EMPTY, A, 0) == ALONE;
    assert Register(ALONE, B, 0) == BOTH;
  }

  lemma Shown()
    ensures IsListing([], PeerView(ALONE.nodes, "a")) && IsListing([B], PeerView(BOTH.nodes, "a"))
  {
    assert PeerView(ALONE.nodes, "a") == map[];
    assert PeerView(BOTH.nodes, "a") == map["b" := B];
  }

  lemma Asks()
    ensures Leads(Alone(map[]), ServeCommand("a", ["a"], 0, []), Alone(map["a" := {OLD}]))
  {
    Undisturbed(ALONE, ["a"]);
    Shown();
    assert SEEN_ALONE[1 := Stripped(ALONE.nodes)] == SEEN_ALONE;
    var none: set<Reply> := {};
    assert none + {Reached(ALONE, 0, [])} == {OLD};
  }

  lemma Begins()
    ensures Leads(Both(map[]), Publish("a", 2), With(FRESH.(slot := Some(2), latest := Some(2))))
    ensures Leads(With(FRESH.(slot := Some(2), latest := Some(2))), Begin("a"), With(Fetching(Asking(2, 0))))
  {
  }

  lemma Serves()
    ensures Leads(With(Fetching(Asking(2, 0))), Serve("a", ["a", "b"], 0, [B]), With(Fetching(Answered(2, NEW))))
  {
    ServeEnabled();
    Undisturbed(BOTH, ["a", "b"]);
    ServedByBoth(With(Fetching(Asking(2, 0))), Fetching(Asking(2, 0)));
  }

  lemma ServedByBoth(s: Sys, w: Worker)
    requires s == With(w)
    ensures WithTable(s, BOTH) == s && WorkerOf(s, "a") == w
    ensures forall other :: WithWorker(s, "a", other) == With(other)
  {
    assert SEEN_BOTH[2 := Stripped(BOTH.nodes)] == SEEN_BOTH;
    forall other ensures WithWorker(s, "a", other) == With(other) {
      assert map["a" := w]["a" := other] == map["a" := other];
    }
  }

  lemma ServeEnabled()
    ensures Enabled(With(Fetching(Asking(2, 0))), Serve("a", ["a", "b"], 0, [B]))
  {
    Undisturbed(BOTH, ["a", "b"]);
    Shown();
  }

  lemma Ends()
    ensures Leads(With(Fetching(Answered(2, NEW))), Receive("a", true), With(SAVED))
    ensures Leads(With(SAVED), Record("a", true), With(CURRENT))
  {
  }

  lemma Extend(trace: seq<Sys>, events: seq<Event>, e: Event, n: Sys)
    requires IsRun(trace, events) && Leads(trace[|events|], e, n)
    ensures IsRun(trace + [n], events + [e])
  {
    var more, all := trace + [n], events + [e];
    forall i | 0 <= i < |all| ensures Enabled(more[i], all[i]) && more[i + 1] == Apply(more[i], all[i]) {
      assert i < |events| ==> Enabled(trace[i], events[i]);
    }
  }

  ghost function Stage(i: nat): Sys {
    match i
    case 0 => Init()
    case 1 => Alone(map[])
    case 2 => Alone(map["a" := {OLD}])
    case 3 => Both(map[])
    case 4 => With(FRESH.(slot := Some(2), latest := Some(2)))
    case 5 => With(Fetching(Asking(2, 0)))
    case 6 => With(Fetching(Answered(2, NEW)))
    case 7 => With(SAVED)
    case _ => With(CURRENT)
  }

  function Next(i: nat): Event {
    match i
    case 0 => Heartbeat(A, ["a"], 0)
    case 1 => ServeCommand("a", ["a"], 0, [])
    case 2 => Heartbeat(B, ["a", "b"], 0)
    case 3 => Publish("a", 2)
    case 4 => Begin("a")
    case 5 => Serve("a", ["a", "b"], 0, [B])
    case 6 => Receive("a", true)
    case _ => Record("a", true)
  }

  lemma StageLeads(i: nat)
    requires i < 8
    ensures Leads(Stage(i), Next(i), Stage(i + 1))
  {
    match i
    case 0 => Joins();
    case 1 => Asks();
    case 2 => Joins();
    case 3 => Begins();
    case 4 => Begins();
    case 5 => Serves();
    case 6 => Ends();
    case 7 => Ends();
  }

  lemma {:induction false} RunTo(n: nat) returns (trace: seq<Sys>, events: seq<Event>)
    requires n <= 8
    ensures IsRun(trace, events) && |events| == n && trace[n] == Stage(n)
  {
    if n == 0 {
      trace, events := [Init()], [];
    } else {
      trace, events := RunTo(n - 1);
      StageLeads(n - 1);
      Extend(trace, events, Next(n - 1), Stage(n));
      trace, events := trace + [Stage(n)], events + [Next(n - 1)];
    }
  }

  /** The saved reply is older than what the node recorded, and the cache stops being what the node would be shown. */
  ghost predicate Harmed(s: Sys, id: string, reply: Reply) {
    Given(s, id, reply) && id in s.table.nodes && reply.revision < WorkerOf(s, id).recorded == s.table.revision &&
    Coherent(WorkerOf(s, id), s.table, id) && !Coherent(SavedBlindly(WorkerOf(s, id), reply), s.table, id)
  }

  /**
   A node asks with a command, a peer joins, the node's worker catches up and records the new
   revision, and then the command saves its old reply.
   */
  lemma LateReplyBreaksCoherence()
    ensures exists trace, events :: IsRun(trace, events) && Harmed(trace[|events|], "a", OLD)
  {
    var trace, events := RunTo(8);
    EndIsHarmed();
  }

  lemma EndIsHarmed()
    ensures Harmed(Stage(8), "a", OLD)
  {
    EndsIncoherent();
    assert WorkerOf(With(CURRENT), "a") == CURRENT;
  }

  lemma EndsIncoherent()
    ensures Coherent(CURRENT, BOTH, "a") && !Coherent(SavedBlindly(CURRENT, OLD), BOTH, "a")
  {
    Shown();
    ListingShows(BOTH.nodes, "a", [B]);
    var view := PeerView(Stripped(BOTH.nodes), "a");
    assert "b" in view;
    assert StripAll([]) == [];
  }
}
