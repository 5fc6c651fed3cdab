/**
 Runs of revisioned discovery: the coordinator's node table, and at every node the heartbeat
 worker's one-slot channel, the discovery worker of internal/app/connection_workers.go, the fetch
 of internal/app/coordinator_client.go, and the files both write. A run is crash-free at the
 coordinator and revokes nobody; nodes may crash between any two steps.
 */
module Discovery {
  import opened Prelude
  import opened Topology
  import opened NodeTable

  datatype Reply = Reply(revision: nat, changed: bool, nodes: seq<Node>)

  /** The discovery worker between taking a revision and recording it. */
  datatype Fetch =
    | Idle
    | Asking(expected: nat, after: nat)
    | Answered(expected: nat, reply: Reply)
    | Saved(expected: nat)

  /**
   slot     - the channel between the heartbeat worker and the discovery worker
   latest   - the last revision put into it since the node started
   current  - the worker's variable; recorded - the revision in the status file
   peers    - peers.json; savedAt - the revision of the reply it was written from
   */
  datatype Worker = Worker(
    slot: Option<nat>, latest: Option<nat>, current: nat, recorded: nat,
    peers: seq<Node>, savedAt: nat, fetch: Fetch, failed: bool)

  const FRESH := Worker(None, None, 0, 0, [], 0, Idle, false)

  /** seen - the topology the table had at each revision; extra - replies to syncDiscovery commands. */
  datatype Sys = Sys(table: Table, workers: map<string, Worker>, seen: map<nat, map<string, Node>>, extra: map<string, set<Reply>>)

  datatype Event =
    | Heartbeat(node: Node, order: seq<string>, now: Time)
    | OtherSweep(order: seq<string>, now: Time)
    | Publish(id: string, revision: nat)
    | Begin(id: string)
    | Serve(id: string, order: seq<string>, now: Time, nodes: seq<Node>)
    | Fail(id: string)
    | Receive(id: string, filesOk: bool)
    | Record(id: string, written: bool)
    | Crash(id: string, statusRead: bool)
    | ServeCommand(id: string, order: seq<string>, now: Time, nodes: seq<Node>)
    | CommandSave(id: string, reply: Reply)

  ghost function Init(): Sys {
    Sys(EMPTY, map[], map[0 := map[]], map[])
  }

  function WorkerOf(s: Sys, id: string): Worker {
    if id in s.workers then s.workers[id] else FRESH
  }

  function Extra(s: Sys, id: string): set<Reply> {
    if id in s.extra then s.extra[id] else {}
  }

  ghost predicate ServesFrom(t: Table, id: string, after: nat, nodes: seq<Node>) {
    id in t.nodes && if after == t.revision then nodes == [] else IsListing(nodes, PeerView(t.nodes, id))
  }

  /** A late reply of a command must not replace what the worker has since recorded. */
  predicate NotOlder(w: Worker, reply: Reply) {
    reply.revision >= w.current && reply.revision >= w.recorded && (w.fetch.Saved? ==> reply.revision >= w.fetch.expected)
  }

  ghost predicate Enabled(s: Sys, e: Event) {
    match e
    case Heartbeat(n, order, now) => IsOrder(order, Register(s.table, n, now).nodes.Keys)
    case OtherSweep(order, now) => IsOrder(order, s.table.nodes.Keys)
    case Publish(_, _) => true
    case Begin(id) => WorkerOf(s, id).slot.Some? && WorkerOf(s, id).fetch == Idle
    case Serve(id, order, now, nodes) =>
      IsOrder(order, s.table.nodes.Keys) && WorkerOf(s, id).fetch.Asking? &&
      ServesFrom(Sweep(s.table, order, now), id, WorkerOf(s, id).fetch.after, nodes)
    case Fail(id) => WorkerOf(s, id).fetch.Asking? || WorkerOf(s, id).fetch.Answered?
    case Receive(id, _) => WorkerOf(s, id).fetch.Answered?
    case Record(id, _) => WorkerOf(s, id).fetch.Saved?
    case Crash(_, _) => true
    case ServeCommand(id, order, now, nodes) =>
      IsOrder(order, s.table.nodes.Keys) && ServesFrom(Sweep(s.table, order, now), id, 0, nodes)
    case CommandSave(id, reply) => reply in Extra(s, id) && reply.changed && NotOlder(WorkerOf(s, id), reply)
  }

  ghost function WithTable(s: Sys, t: Table): Sys {
    s.(table := t, seen := s.seen[t.revision := Stripped(t.nodes)])
  }

  function WithWorker(s: Sys, id: string, w: Worker): Sys {
    s.(workers := s.workers[id := w])
  }

  function Reached(t: Table, after: nat, nodes: seq<Node>): Reply {
    Reply(t.revision, after != t.revision, nodes)
  }

  function GiveUp(w: Worker): Worker {
    w.(fetch := Idle, failed := true)
  }

  /** One turn of the discovery worker's loop up to the request. */
  function Taken(w: Worker): Worker
    requires w.slot.Some?
  {
    w.(slot := None, fetch := if w.slot.value == w.current then Idle else Asking(w.slot.value, w.current))
  }

  /** fetchDiscovery after the response has been read. */
  function Received(w: Worker, filesOk: bool): Worker
    requires w.fetch.Answered?
  {
    var reply := w.fetch.reply;
    if (w.fetch.expected != 0 && reply.revision < w.fetch.expected) || !filesOk then GiveUp(w)
    else if !reply.changed then w.(fetch := Saved(w.fetch.expected))
    else w.(fetch := Saved(w.fetch.expected), peers := reply.nodes, savedAt := reply.revision)
  }

  function Recorded(w: Worker, written: bool): Worker
    requires w.fetch.Saved?
  {
    w.(fetch := Idle, failed := false, current := w.fetch.expected,
       recorded := if written then w.fetch.expected else w.recorded)
  }

  function Restarted(w: Worker, statusRead: bool): Worker {
    w.(slot := None, latest := None, fetch := Idle, failed := false, current := if statusRead then w.recorded else 0)
  }

  ghost function Apply(s: Sys, e: Event): Sys
    requires Enabled(s, e)
  {
    match e
    case Heartbeat(n, order, now) => WithTable(s, Sweep(Register(s.table, n, now), order, now))
    case OtherSweep(order, now) => WithTable(s, Sweep(s.table, order, now))
    case Publish(id, r) => WithWorker(s, id, WorkerOf(s, id).(slot := Some(r), latest := Some(r)))
    case Begin(id) => WithWorker(s, id, Taken(WorkerOf(s, id)))
    case Serve(id, order, now, nodes) =>
      var t, fetch := Sweep(s.table, order, now), WorkerOf(s, id).fetch;
      WithWorker(WithTable(s, t), id,
                 WorkerOf(s, id).(fetch := Answered(fetch.expected, Reached(t, fetch.after, nodes))))
    case Fail(id) => WithWorker(s, id, GiveUp(WorkerOf(s, id)))
    case Receive(id, filesOk) => WithWorker(s, id, Received(WorkerOf(s, id), filesOk))
    case Record(id, written) => WithWorker(s, id, Recorded(WorkerOf(s, id), written))
    case Crash(id, statusRead) => WithWorker(s, id, Restarted(WorkerOf(s, id), statusRead))
    case ServeCommand(id, order, now, nodes) =>
      var t := Sweep(s.table, order, now);
      WithTable(s, t).(extra := s.extra[id := Extra(s, id) + {Reached(t, 0, nodes)}])
    case CommandSave(id, reply) =>
      WithWorker(s, id, WorkerOf(s, id).(peers := reply.nodes, savedAt := reply.revision))
  }

  ghost predicate IsRun(trace: seq<Sys>, events: seq<Event>) {
    && |trace| == |events| + 1
    && trace[0] == Init()
    && (forall i :: 0 <= i < |events| ==> Enabled(trace[i], events[i]) && trace[i + 1] == Apply(trace[i], events[i]))
  }

  // ----- what every step keeps -----

  function StripAll(nodes: seq<Node>): (r: seq<Node>)
    ensures |r| == |nodes|
    ensures forall i :: 0 <= i < |r| ==> r[i] == Strip(nodes[i])
  {
    seq(|nodes|, i requires 0 <= i < |nodes| => Strip(nodes[i]))
  }

  /** The peers are what a node of this ID was shown when the table had this topology. */
  ghost predicate Shows(peers: seq<Node>, topology: map<string, Node>, id: string) {
    id in topology ==> Lists(StripAll(peers), PeerView(topology, id))
  }

  type Snapshots = map<nat, map<string, Node>>

  ghost predicate SeenOk(t: Table, seen: Snapshots) {
    && 0 in seen && seen[0] == map[]
    && t.revision in seen && seen[t.revision] == Stripped(t.nodes)
    && (forall r: nat :: r in seen ==> r <= t.revision)
    && IdsOk(t) && (forall r: nat, id :: r in seen && id in seen[r] ==> seen[r][id].id == id)
  }

  ghost predicate ReplyOk(reply: Reply, seen: Snapshots, id: string) {
    reply.changed ==>
      reply.revision in seen && id in seen[reply.revision] && Shows(reply.nodes, seen[reply.revision], id)
  }

  ghost predicate FetchOk(w: Worker, seen: Snapshots, id: string) {
    match w.fetch
    case Idle => true
    case Asking(_, after) => after == w.current
    case Answered(_, reply) =>
      ReplyOk(reply, seen, id) && reply.revision >= w.current && reply.revision >= w.recorded &&
      (!reply.changed ==> reply.revision == w.current)
    case Saved(expected) => expected <= w.savedAt
  }

  ghost predicate WorkerOk(w: Worker, seen: Snapshots, id: string) {
    && w.recorded <= w.savedAt && w.current <= w.savedAt
    && w.savedAt in seen && Shows(w.peers, seen[w.savedAt], id)
    && (w.savedAt > 0 ==> id in seen[w.savedAt])
    && FetchOk(w, seen, id)
  }

  /** A revision is dropped only for a newer one; the worker has dealt with the latest. */
  predicate SlotOk(w: Worker) {
    && (w.slot.Some? ==> w.latest == w.slot)
    && (w.latest.Some? && w.slot == None ==>
          match w.fetch
          case Idle => w.failed || w.current == w.latest.value
          case Asking(expected, _) => expected == w.latest.value
          case Answered(expected, _) => expected == w.latest.value
          case Saved(expected) => expected == w.latest.value)
  }

  ghost predicate SysOk(s: Sys) {
    && SeenOk(s.table, s.seen)
    && (forall id :: id in s.workers ==> WorkerOk(s.workers[id], s.seen, id) && SlotOk(s.workers[id]))
    && (forall id, reply :: id in s.extra && reply in s.extra[id] ==> ReplyOk(reply, s.seen, id))
  }

  predicate Extends(a: Snapshots, b: Snapshots) {
    forall r: nat :: r in a ==> r in b && b[r] == a[r]
  }
}
