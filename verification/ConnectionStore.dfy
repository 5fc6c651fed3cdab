/**
 The coordinator's connection-request store: the records, counters and wake-up channels that
 internal/app/connection_server.go and the connection part of the sweep in
 internal/app/coordinator_nodes.go keep, and what one critical section does to them.
 Every operation here is the whole effect of one section run under the registry's mutex.
 */
module ConnectionStore {
  import opened Prelude
  import opened Topology
  import opened Sorting

  datatype ConnectionState = Queued | Offered | Accepted | Rejected | Canceled | Expired | Closed | Failed

  predicate Terminal(state: ConnectionState) {
    state != Queued && state != Offered
  }

  /** The zero lease end of the source is None. */
  datatype Connection = Connection(
    id: string, key: string, source: string, target: string, service: string, returnRelay: string,
    state: ConnectionState, statusCode: int, reason: string, cursor: nat,
    createdAt: Time, updatedAt: Time, expiresAt: Time, leaseEnds: Option<Time>)

  datatype Config = Config(ttl: int, lease: int, maxStored: nat)

  const MAX_PER_TARGET: nat := 128
  const MAX_INBOX_EVENTS: nat := 32
  const RETENTION: int := DAY

  /** A wake-up channel is a number; `closed` holds the channels that have been closed. */
  datatype Store = Store(
    config: Config,
    connections: map<string, Connection>,
    idempotency: map<string, string>,
    cursors: map<string, nat>,
    acks: map<string, nat>,
    targetSignals: map<string, nat>,
    requestSignals: map<string, nat>,
    closed: set<nat>,
    nextSignal: nat,
    inboxWaiters: set<string>)

  function Empty(config: Config): Store {
    Store(config, map[], map[], map[], map[], map[], map[], {}, 0, {})
  }

  const NUL: char := '\U{0000}'

  function IndexKey(source: string, key: string): string {
    source + [NUL] + key
  }

  function KeyOf(c: Connection): string {
    IndexKey(c.source, c.key)
  }

  // ----- signals -----

  function SignalOf(signals: map<string, nat>, key: string): set<nat> {
    if key in signals then {signals[key]} else {}
  }

  /** Closing a channel wakes its waiters; the next subscriber opens a new one. */
  function NotifyTarget(s: Store, node: string): Store {
    s.(closed := s.closed + SignalOf(s.targetSignals, node), targetSignals := s.targetSignals - {node})
  }

  function NotifyRequest(s: Store, id: string): Store {
    s.(closed := s.closed + SignalOf(s.requestSignals, id), requestSignals := s.requestSignals - {id})
  }

  function SubscribeTarget(s: Store, node: string): (Store, nat) {
    if node in s.targetSignals then (s, s.targetSignals[node])
    else (s.(targetSignals := s.targetSignals[node := s.nextSignal], nextSignal := s.nextSignal + 1), s.nextSignal)
  }

  function SubscribeRequest(s: Store, id: string): (Store, nat) {
    if id in s.requestSignals then (s, s.requestSignals[id])
    else (s.(requestSignals := s.requestSignals[id := s.nextSignal], nextSignal := s.nextSignal + 1), s.nextSignal)
  }

  /** Store a new version of a record and wake its status waiters, and its target's inbox if asked. */
  function Rewrite(s: Store, c: Connection, wakeTarget: bool): Store {
    s.(connections := s.connections[c.id := c],
       closed := s.closed + SignalOf(s.requestSignals, c.id) +
                 (if wakeTarget then SignalOf(s.targetSignals, c.target) else {}),
       targetSignals := if wakeTarget then s.targetSignals - {c.target} else s.targetSignals,
       requestSignals := s.requestSignals - {c.id})
  }

  // ----- the sweep -----

  predicate Expires(c: Connection, now: Time) {
    !Terminal(c.state) && c.expiresAt < now
  }

  predicate Requeues(c: Connection, now: Time) {
    !Expires(c, now) && c.state == Offered && c.leaseEnds.Some? && c.leaseEnds.value < now
  }

  predicate Retires(c: Connection, now: Time) {
    Terminal(c.state) && c.updatedAt < now - RETENTION
  }

  predicate Touches(c: Connection, now: Time) {
    Expires(c, now) || Requeues(c, now) || Retires(c, now)
  }

  function AsExpired(c: Connection, now: Time): Connection {
    c.(state := Expired, statusCode := 410, reason := "request expired", updatedAt := now, leaseEnds := None)
  }

  function AsRequeued(c: Connection, cursor: nat, now: Time): Connection {
    c.(state := Queued, statusCode := 100, cursor := cursor, updatedAt := now, leaseEnds := None)
  }

  /** What the sweep makes of a record; `cursor` is used only by a requeue. */
  function SweptRecord(c: Connection, cursor: nat, now: Time): Connection {
    if Expires(c, now) then AsExpired(c, now)
    else if Requeues(c, now) then AsRequeued(c, cursor, now)
    else c
  }

  predicate Wakes(c: Connection, now: Time) {
    Expires(c, now) || Requeues(c, now)
  }

  function SweptConnections(m: map<string, Connection>, id: string, cursor: nat, now: Time): map<string, Connection>
    requires id in m
  {
    if Retires(m[id], now) then m - {id} else m[id := SweptRecord(m[id], cursor, now)]
  }

  function SweptCursors(cursors: map<string, nat>, c: Connection, now: Time): map<string, nat> {
    if Requeues(c, now) then cursors[c.target := Lookup(cursors, c.target) + 1] else cursors
  }

  /** The loop body of the sweep for one record. */
  function SweepOne(s: Store, id: string, now: Time): Store {
    if id !in s.connections then s
    else
      var c := s.connections[id];
      s.(connections := SweptConnections(s.connections, id, Lookup(s.cursors, c.target) + 1, now),
         cursors := SweptCursors(s.cursors, c, now),
         idempotency := if Retires(c, now) then s.idempotency - {KeyOf(c)} else s.idempotency,
         closed := if Wakes(c, now)
           then s.closed + SignalOf(s.targetSignals, c.target) + SignalOf(s.requestSignals, id) else s.closed,
         targetSignals := if Wakes(c, now) then s.targetSignals - {c.target} else s.targetSignals,
         requestSignals := if Touches(c, now) then s.requestSignals - {id} else s.requestSignals)
  }

  /** The sweep visiting the records in the given order. */
  function Sweep(s: Store, order: seq<string>, now: Time): Store {
    if order == [] then s
    else SweepOne(Sweep(s, order[..|order| - 1], now), order[|order| - 1], now)
  }

  // ----- create -----

  datatype CreateInput = CreateInput(key: string, target: string, service: string, returnRelay: string)

  predicate WellFormedInput(input: CreateInput) {
    input.target != "" && input.service != "" && input.key != "" && ByteLength(input.key) <= 128
  }

  predicate Publishes(node: Node, service: string) {
    exists i :: 0 <= i < |node.services| && node.services[i].name == service
  }

  predicate EndpointsActive(nodes: map<string, Node>, source: string, target: string) {
    source in nodes && target in nodes && nodes[source].network == nodes[target].network
  }

  predicate ReturnRelayActive(nodes: map<string, Node>, source: string, relay: string)
    requires source in nodes
  {
    relay == "" ||
    (relay in nodes && nodes[relay].role == Relay && nodes[relay].relay.Some? &&
     nodes[relay].network == nodes[source].network && nodes[relay].segment == nodes[source].segment)
  }

  type Records = map<string, Connection>

  function LiveFor(records: Records, target: string): set<string> {
    set id | id in records && records[id].target == target && !Terminal(records[id].state)
  }

  /** The status a create answers with; 201 only when a record is stored. */
  function CreateStatus(s: Store, source: string, input: CreateInput, nodes: map<string, Node>): int {
    if IndexKey(source, input.key) in s.idempotency && s.idempotency[IndexKey(source, input.key)] != "" then
      if s.idempotency[IndexKey(source, input.key)] in s.connections then 200 else 500
    else if !EndpointsActive(nodes, source, input.target) then 404
    else if !ReturnRelayActive(nodes, source, input.returnRelay) then 400
    else if !Publishes(nodes[input.target], input.service) then 404
    else if |s.connections| >= s.config.maxStored then 503
    else if |LiveFor(s.connections, input.target)| >= MAX_PER_TARGET then 429
    else 201
  }

  function NewConnection(s: Store, source: string, input: CreateInput, id: string, now: Time): Connection {
    Connection(id, input.key, source, input.target, input.service, input.returnRelay,
               Queued, 100, "", Lookup(s.cursors, input.target) + 1, now, now, now + s.config.ttl, None)
  }

  function Insert(s: Store, source: string, input: CreateInput, id: string, now: Time): Store {
    var cursor := Lookup(s.cursors, input.target) + 1;
    Rewrite(s.(cursors := s.cursors[input.target := cursor],
               idempotency := s.idempotency[IndexKey(source, input.key) := id]),
            NewConnection(s, source, input, id, now), true)
  }

  // ----- inbox -----

  predicate Pending(c: Connection, node: string, after: nat) {
    c.target == node && c.state == Queued && c.cursor > after
  }

  function PendingIds(s: Store, node: string, after: nat): set<string> {
    set id | id in s.connections && Pending(s.connections[id], node, after)
  }

  predicate StrictlyIncreasing(events: seq<Connection>) {
    forall i, j :: 0 <= i < j < |events| ==> events[i].cursor < events[j].cursor
  }

  predicate CursorBefore(a: Connection, b: Connection) {
    a.cursor < b.cursor
  }

  lemma CursorOrder()
    ensures IsOrdering(CursorBefore)
  {
  }

  /** The `limit` pending records with the smallest cursors, in cursor order. */
  ghost predicate IsBatch(s: Store, node: string, after: nat, limit: nat, events: seq<Connection>) {
    && (forall i :: 0 <= i < |events| ==>
          events[i].id in PendingIds(s, node, after) && events[i] == s.connections[events[i].id])
    && StrictlyIncreasing(events)
    && |events| <= limit
    && (forall id :: id in PendingIds(s, node, after) ==>
          s.connections[id] in events ||
          (|events| == limit && forall i :: 0 <= i < |events| ==> events[i].cursor < s.connections[id].cursor))
  }

  function AsOffered(c: Connection, now: Time, lease: int): Connection {
    c.(state := Offered, statusCode := 102, updatedAt := now, leaseEnds := Some(now + lease))
  }

  function OfferOne(s: Store, c: Connection, now: Time): Store {
    Rewrite(s, AsOffered(c, now, s.config.lease), false)
  }

  function Offer(s: Store, events: seq<Connection>, now: Time): Store {
    if events == [] then s
    else OfferOne(Offer(s, events[..|events| - 1], now), events[|events| - 1], now)
  }

  function OfferedCopies(events: seq<Connection>, now: Time, lease: int): (r: seq<Connection>)
    ensures |r| == |events|
    ensures forall i :: 0 <= i < |events| ==> r[i] == AsOffered(events[i], now, lease)
  {
    seq(|events|, i requires 0 <= i < |events| => AsOffered(events[i], now, lease))
  }

  function InboxLimit(maxEvents: int): (r: nat)
    ensures 1 <= r <= MAX_INBOX_EVENTS
    ensures 1 <= maxEvents <= MAX_INBOX_EVENTS ==> r == maxEvents
  {
    if maxEvents <= 0 || maxEvents > MAX_INBOX_EVENTS then MAX_INBOX_EVENTS else maxEvents
  }

  // ----- acknowledgement and decisions -----

  predicate AckAllowed(s: Store, node: string, cursor: nat) {
    cursor <= Lookup(s.cursors, node)
  }

  function Acknowledge(s: Store, node: string, cursor: nat): Store {
    if AckAllowed(s, node, cursor) && cursor > Lookup(s.acks, node) then s.(acks := s.acks[node := cursor]) else s
  }

  function AsDecided(c: Connection, state: ConnectionState, code: int, reason: string, now: Time): Connection {
    c.(state := state, statusCode := code, reason := reason, updatedAt := now, leaseEnds := None)
  }

  /** The status a decision by `node` answers with; `changes` when it writes the record. */
  datatype Verdict = Verdict(status: int, changes: bool)

  function DecideVerdict(s: Store, node: string, id: string, state: ConnectionState): Verdict {
    if id !in s.connections then Verdict(404, false)
    else if s.connections[id].target != node then Verdict(403, false)
    else if s.connections[id].state == state then Verdict(200, false)
    else if Terminal(s.connections[id].state) then Verdict(409, false)
    else Verdict(200, true)
  }

  function CancelVerdict(s: Store, node: string, id: string): Verdict {
    if id !in s.connections then Verdict(404, false)
    else if s.connections[id].source != node then Verdict(403, false)
    else if s.connections[id].state == Canceled then Verdict(200, false)
    else if Terminal(s.connections[id].state) then Verdict(409, false)
    else Verdict(200, true)
  }

  function Decide(s: Store, node: string, id: string, accept: bool, reason: string, now: Time): Store {
    var state := if accept then Accepted else Rejected;
    if !DecideVerdict(s, node, id, state).changes then s
    else Rewrite(s, AsDecided(s.connections[id], state, if accept then 200 else 403, reason, now), false)
  }

  function Cancel(s: Store, node: string, id: string, reason: string, now: Time): Store {
    if !CancelVerdict(s, node, id).changes then s
    else Rewrite(s, AsDecided(s.connections[id], Canceled, 499, reason, now), true)
  }

  function RegisterWaiter(s: Store, node: string): Store {
    s.(inboxWaiters := s.inboxWaiters + {node})
  }

  function ReleaseWaiter(s: Store, node: string): Store {
    s.(inboxWaiters := s.inboxWaiters - {node})
  }
}
