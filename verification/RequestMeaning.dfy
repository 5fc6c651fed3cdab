/**
 What the connection handlers mean, in the terms of internal/app/connection_server.go and of the
 sweep: records, fields, counters, channels and status numbers. Nothing here is said through the
 functions that ConnectionStore computes with.
 */
module RequestMeaning {
  import opened Prelude
  import opened Topology
  import opened ConnectionStore
  import opened StoreInvariants
  import opened SweepEffect
  import opened ConnectionServer
  import Delivery
  import DeliveryProofs
  import InboxMerge

  predicate Live(c: Connection) {
    c.state == Queued || c.state == Offered
  }

  /** Exactly the channels of these requests and targets are closed and forgotten. */
  ghost predicate Wakes(m: Store, n: Store, requests: set<string>, targets: set<string>) {
    && n.requestSignals == m.requestSignals - requests
    && n.targetSignals == m.targetSignals - targets
    && n.nextSignal == m.nextSignal
    && (forall ch: nat :: ch in n.closed <==>
          ch in m.closed || ChannelIn(m.requestSignals, requests, ch) || ChannelIn(m.targetSignals, targets, ch))
  }

  ghost predicate ChannelIn(signals: map<string, nat>, keys: set<string>, ch: nat) {
    exists k :: k in keys && k in signals && signals[k] == ch
  }

  ghost predicate SameBooks(m: Store, n: Store) {
    n.config == m.config && n.idempotency == m.idempotency && n.cursors == m.cursors && n.acks == m.acks &&
    n.inboxWaiters == m.inboxWaiters
  }

  // ----- the sweep -----

  /** What one record becomes: expired, queued again, or as it was. */
  ghost predicate SweptTo(c: Connection, d: Connection, now: Time) {
    if Live(c) && c.expiresAt < now then
      d == c.(state := Expired, statusCode := 410, reason := "request expired", updatedAt := now, leaseEnds := None)
    else if c.state == Offered && c.leaseEnds.Some? && c.leaseEnds.value < now then
      d == c.(state := Queued, statusCode := 100, cursor := d.cursor, updatedAt := now, leaseEnds := None)
    else d == c
  }

  /** A record disappears exactly if it has been final for more than a day; every other becomes what its instants say. */
  lemma SweepMeans(s: Store, order: seq<string>, now: Time, id: string)
    requires IsOrder(order, s.connections.Keys)
    ensures var m := Sweep(s, order, now).connections;
            (id in m <==> id in s.connections && (Live(s.connections[id]) || s.connections[id].updatedAt >= now - DAY)) &&
            (id in m ==> SweptTo(s.connections[id], m[id], now))
  {
    SweepSettles(s, order, now);
  }

  // ----- create -----

  /** A stored request of this source and key. */
  ghost predicate Known(r: Records, source: string, key: string, id: string) {
    id in r && r[id].source == source && r[id].key == key
  }

  predicate ActiveEnds(nodes: map<string, Node>, source: string, target: string) {
    source in nodes && target in nodes && nodes[source].network == nodes[target].network
  }

  /** A return relay, if named, is an advertised relay of the source's network and segment. */
  predicate RelayFits(nodes: map<string, Node>, source: string, relay: string)
    requires source in nodes
  {
    relay != "" ==>
      relay in nodes && nodes[relay].role == Relay && nodes[relay].relay.Some? &&
      nodes[relay].network == nodes[source].network && nodes[relay].segment == nodes[source].segment
  }

  ghost predicate Offers(n: Node, service: string) {
    exists s :: s in n.services && s.name == service
  }

  /** The first refusal that applies to a create whose key is new; 201 when none does. */
  ghost function Refusal(m: Store, source: string, input: CreateInput, nodes: map<string, Node>): int {
    if !ActiveEnds(nodes, source, input.target) then 404
    else if !RelayFits(nodes, source, input.returnRelay) then 400
    else if !Offers(nodes[input.target], input.service) then 404
    else if |m.connections| >= m.config.maxStored then 503
    else if |set id | id in m.connections && m.connections[id].target == input.target && Live(m.connections[id])| >= 128 then 429
    else 201
  }

  /** A queued record with everything the caller asked for, under the target's next cursor. */
  ghost predicate IsNew(m: Store, c: Connection, source: string, input: CreateInput, id: string, now: Time) {
    && c.id == id && c.source == source && c.key == input.key
    && c.target == input.target && c.service == input.service && c.returnRelay == input.returnRelay
    && c.state == Queued && c.statusCode == 100 && c.reason == "" && c.leaseEnds == None
    && c.createdAt == now && c.updatedAt == now && c.expiresAt == now + m.config.ttl
    && c.cursor == (if input.target in m.cursors then m.cursors[input.target] else 0) + 1
  }

  /** The store with that record: counted, indexed under source and key, its waiters woken, all else as before. */
  ghost predicate Stores(m: Store, n: Store, source: string, input: CreateInput, id: string, now: Time) {
    && id in n.connections && IsNew(m, n.connections[id], source, input, id, now)
    && n.connections == m.connections[id := n.connections[id]]
    && n.cursors == m.cursors[input.target := n.connections[id].cursor]
    && n.idempotency == m.idempotency[source + [NUL] + input.key := id]
    && n.config == m.config && n.acks == m.acks && n.inboxWaiters == m.inboxWaiters
    && Wakes(m, n, {id}, {input.target})
  }

  /** How a create must end on a swept store. */
  ghost predicate CreateEnds(m: Store, source: string, input: CreateInput, nodes: map<string, Node>, token: Option<string>,
                             now: Time, persisted: bool, n: Store, status: int, answer: Option<Connection>) {
    var refusal := Refusal(m, source, input, nodes);
    if exists id :: Known(m.connections, source, input.key, id) then
      n == m && status == 200 && answer.Some? && answer.value in m.connections.Values &&
      answer.value.source == source && answer.value.key == input.key
    else if refusal != 201 then n == m && status == refusal && answer == None
    else if token == None then n == m && status == 500 && answer == None
    else
      Stores(m, n, source, input, token.value, now) &&
      if persisted then status == 201 && answer == Some(n.connections[token.value]) else status == 500 && answer == None
  }

  lemma CreateMeans(m: Store, source: string, input: CreateInput, nodes: map<string, Node>, token: Option<string>,
                    now: Time, persisted: bool, n: Store, status: int, answer: Option<Connection>)
    requires IdsOk(m.connections) && IndexOk(m.connections, m.idempotency) && NUL !in source
    requires Created(m, source, input, nodes, token, now, persisted, n, status, answer)
    ensures CreateEnds(m, source, input, nodes, token, now, persisted, n, status, answer)
  {
    KnownIsIndexed(m, source, input.key);
    if !(exists id :: Known(m.connections, source, input.key, id)) {
      RefusalIsStatus(m, source, input, nodes);
      if token.Some? && CreateStatus(m, source, input, nodes) == 201 {
        InsertStores(m, source, input, token.value, now);
      }
    } else {
      var index := IndexKey(source, input.key);
      var c := m.connections[m.idempotency[index]];
      IndexKeyInjective(c.source, c.key, source, input.key);
    }
  }

  lemma KnownIsIndexed(m: Store, source: string, key: string)
    requires IdsOk(m.connections) && IndexOk(m.connections, m.idempotency) && NUL !in source
    ensures (exists id :: Known(m.connections, source, key, id)) <==> IndexKey(source, key) in m.idempotency
    ensures IndexKey(source, key) in m.idempotency ==> m.idempotency[IndexKey(source, key)] != ""
  {
    if IndexKey(source, key) in m.idempotency {
      var id := m.idempotency[IndexKey(source, key)];
      IndexKeyInjective(m.connections[id].source, m.connections[id].key, source, key);
      assert Known(m.connections, source, key, id);
    }
  }

  lemma RefusalIsStatus(m: Store, source: string, input: CreateInput, nodes: map<string, Node>)
    requires IndexKey(source, input.key) !in m.idempotency
    ensures CreateStatus(m, source, input, nodes) == Refusal(m, source, input, nodes)
  {
    if ActiveEnds(nodes, source, input.target) {
      var n := nodes[input.target];
      assert Offers(n, input.service) <==> Publishes(n, input.service) by {
        if Offers(n, input.service) {
          var s :| s in n.services && s.name == input.service;
          var i :| 0 <= i < |n.services| && n.services[i] == s;
        }
        if Publishes(n, input.service) {
          var i :| 0 <= i < |n.services| && n.services[i].name == input.service;
          assert n.services[i] in n.services;
        }
      }
    }
    assert LiveFor(m.connections, input.target)
        == set id | id in m.connections && m.connections[id].target == input.target && Live(m.connections[id]);
  }

  lemma InsertStores(m: Store, source: string, input: CreateInput, id: string, now: Time)
    ensures Stores(m, Insert(m, source, input, id, now), source, input, id, now)
  {
  }

  // ----- accept, reject, cancel -----

  /** How a request to end record `id` in a final state must end on a swept store. */
  ghost predicate EndsAs(m: Store, n: Store, id: string, mine: bool, state: ConnectionState, code: int, reason: string, now: Time,
                         targets: set<string>, persisted: bool, status: int, answer: Option<Connection>) {
    if id !in m.connections then status == 404 && n == m && answer == None
    else if !mine then status == 403 && n == m && answer == None
    else if Live(m.connections[id]) then
      id in n.connections &&
      n.connections[id] ==
        m.connections[id].(state := state, statusCode := code, reason := reason, updatedAt := now, leaseEnds := None) &&
      n.connections == m.connections[id := n.connections[id]] && SameBooks(m, n) && Wakes(m, n, {id}, targets) &&
      if persisted then status == 200 && answer == Some(n.connections[id]) else status == 500 && answer == None
    else if m.connections[id].state == state then status == 200 && n == m && answer == Some(m.connections[id])
    else status == 409 && n == m && answer == None
  }

  /** The target decides any live request of its own; its request channel closes. */
  lemma DecideMeans(m: Store, node: string, id: string, accept: bool, reason: string, now: Time, persisted: bool, n: Store,
                    status: int, answer: Option<Connection>)
    requires IdsOk(m.connections) && n == Decide(m, node, id, accept, reason, now)
    requires Concluded(DecideVerdict(m, node, id, if accept then Accepted else Rejected), n, id, persisted, status, answer)
    ensures EndsAs(m, n, id, id in m.connections && m.connections[id].target == node,
                   if accept then Accepted else Rejected, if accept then 200 else 403, reason, now, {}, persisted, status, answer)
    ensures persisted ==>
              (status == 200 <==>
                 id in m.connections && m.connections[id].target == node &&
                 (Live(m.connections[id]) || m.connections[id].state == if accept then Accepted else Rejected))
  {
  }

  /** The source cancels any live request of its own; its request channel and the target's close. */
  lemma CancelMeans(m: Store, node: string, id: string, reason: string, now: Time, persisted: bool, n: Store,
                    status: int, answer: Option<Connection>)
    requires IdsOk(m.connections) && n == Cancel(m, node, id, reason, now)
    requires Concluded(CancelVerdict(m, node, id), n, id, persisted, status, answer)
    ensures EndsAs(m, n, id, id in m.connections && m.connections[id].source == node, Canceled, 499, reason, now,
                   if id in m.connections then {m.connections[id].target} else {}, persisted, status, answer)
    ensures persisted ==>
              (status == 200 <==>
                 id in m.connections && m.connections[id].source == node &&
                 (Live(m.connections[id]) || m.connections[id].state == Canceled))
  {
  }

  // ----- status -----

  /** Source and target are answered the stored record; nobody else is, and a wait goes on only in the known live state. */
  lemma StatusMeans(m: Store, node: string, id: string, known: Option<ConnectionState>, wait: bool, failing: bool,
                    n: Store, outcome: StatusOutcome)
    requires StatusPassed(m, node, id, known, wait, failing, n, outcome)
    ensures n.connections == m.connections && SameBooks(m, n) && n.closed == m.closed && n.targetSignals == m.targetSignals
    ensures outcome == Answered(404, None) <==> id !in m.connections
    ensures outcome == Answered(403, None) <==>
            id in m.connections && m.connections[id].source != node && m.connections[id].target != node
    ensures id in m.connections && (m.connections[id].source == node || m.connections[id].target == node) ==>
              if failing then outcome == Answered(500, None)
              else if wait && Some(m.connections[id].state) == known && Live(m.connections[id]) then
                outcome.BlockOn? && id in n.requestSignals && n.requestSignals[id] == outcome.signal
              else outcome == Answered(200, Some(m.connections[id]))
  {
  }

  // ----- inbox -----

  /** A record of the batch after the pass: offered until the lease ends, everything else kept. */
  ghost predicate IsOffered(c: Connection, d: Connection, now: Time, lease: int) {
    d == c.(state := Offered, statusCode := 102, updatedAt := now, leaseEnds := Some(now + lease))
  }

  /** Of the queued requests of the node above its cursor the events are the `limit` smallest, in order. */
  ghost predicate IsSmallest(m: Store, node: string, after: nat, limit: nat, events: seq<Connection>) {
    && |events| <= limit
    && (forall i :: 0 <= i < |events| ==> Waiting(m, node, after, events[i].id) && m.connections[events[i].id].cursor == events[i].cursor)
    && (forall i, j :: 0 <= i < j < |events| ==> events[i].cursor < events[j].cursor)
    && (forall id :: Waiting(m, node, after, id) ==>
          (exists i :: 0 <= i < |events| && events[i].id == id) ||
          (|events| == limit && forall i :: 0 <= i < |events| ==> events[i].cursor < m.connections[id].cursor))
  }

  ghost predicate Waiting(m: Store, node: string, after: nat, id: string) {
    id in m.connections && m.connections[id].target == node && m.connections[id].state == Queued && m.connections[id].cursor > after
  }

  /** How a pass that finds something must end: the reply is the batch, offered, with its last cursor. */
  ghost predicate DeliversTo(m: Store, n: Store, node: string, after: nat, limit: nat, now: Time, events: seq<Connection>, cursor: nat) {
    && events != [] && IsSmallest(m, node, after, limit, events) && cursor == events[|events| - 1].cursor
    && (forall i :: 0 <= i < |events| ==>
          IsOffered(m.connections[events[i].id], events[i], now, m.config.lease) &&
          events[i].id in n.connections && n.connections[events[i].id] == events[i])
    && n.connections.Keys == m.connections.Keys
    && (forall id :: id in m.connections && (forall i :: 0 <= i < |events| ==> events[i].id != id) ==>
          n.connections[id] == m.connections[id])
  }

  /** A pass delivers, and so offers, whatever waits; only a failing write turns the answer into an error. */
  lemma PassDelivers(m: Store, node: string, after: nat, limit: nat, now: Time, persisted: bool, dirty: bool,
                     batch: seq<Connection>, n: Store, outcome: PassOutcome)
    requires IdsOk(m.connections) && Settled(m.connections, now) && limit > 0 && exists id :: Waiting(m, node, after, id)
    requires Passed(m, node, after, limit, now, persisted, dirty, batch, n, outcome)
    ensures n.config == m.config && n.cursors == m.cursors && n.idempotency == m.idempotency && n.acks == m.acks
    ensures if persisted then outcome.Deliver? && DeliversTo(m, n, node, after, limit, now, outcome.events, outcome.cursor)
            else outcome == Fault
  {
    SomethingWaits(m, node, after, limit, batch);
    BatchStored(m, node, after, limit, now, batch);
    BatchDelivers(m, n, node, after, limit, now, batch, OfferedCopies(batch, now, m.config.lease));
    OfferKeepsBooks(m, batch, now);
  }

  /** With nothing waiting it changes no record, registers for the target's channel and holds the counter for a timeout. */
  lemma PassBlocks(m: Store, node: string, after: nat, limit: nat, now: Time, persisted: bool, dirty: bool,
                   batch: seq<Connection>, n: Store, outcome: PassOutcome)
    requires limit > 0 && !exists id :: Waiting(m, node, after, id)
    requires Passed(m, node, after, limit, now, persisted, dirty, batch, n, outcome)
    ensures n.connections == m.connections && n.closed == m.closed && SameBooks(m, n)
    ensures if persisted || !dirty then
              outcome.Block? && node in n.targetSignals && n.targetSignals[node] == outcome.signal &&
              outcome.cursor == if node in m.cursors then m.cursors[node] else 0
            else outcome == Fault
  {
    SomethingWaits(m, node, after, limit, batch);
  }

  lemma SomethingWaits(m: Store, node: string, after: nat, limit: nat, batch: seq<Connection>)
    requires IsBatch(m, node, after, limit, batch) && limit > 0
    ensures (exists id :: Waiting(m, node, after, id)) <==> batch != []
  {
    if batch != [] {
      assert batch[0].id in PendingIds(m, node, after);
      assert Waiting(m, node, after, batch[0].id);
    }
    assert forall id :: Waiting(m, node, after, id) ==> id in PendingIds(m, node, after);
  }

  lemma {:induction false} OfferKeepsBooks(m: Store, batch: seq<Connection>, now: Time)
    ensures var n := Offer(m, batch, now);
            n.config == m.config && n.cursors == m.cursors && n.idempotency == m.idempotency && n.acks == m.acks
  {
    if batch != [] {
      OfferKeepsBooks(m, batch[..|batch| - 1], now);
    }
  }

  lemma BatchDelivers(m: Store, n: Store, node: string, after: nat, limit: nat, now: Time, batch: seq<Connection>, events: seq<Connection>)
    requires IdsOk(m.connections) && IsBatch(m, node, after, limit, batch) && batch != []
    requires events == OfferedCopies(batch, now, m.config.lease)
    requires DeliveryProofs.RecordsOffered(m.connections, n.connections, batch, now, m.config.lease)
    requires forall i :: 0 <= i < |batch| ==> batch[i].id in m.connections && m.connections[batch[i].id] == batch[i]
    ensures DeliversTo(m, n, node, after, limit, now, events, batch[|batch| - 1].cursor)
  {
    BatchIsSmallest(m, node, after, limit, batch, events);
    CopiesStored(m.connections, n.connections, batch, events, now, m.config.lease);
  }

  lemma BatchStored(m: Store, node: string, after: nat, limit: nat, now: Time, batch: seq<Connection>)
    requires IdsOk(m.connections) && Settled(m.connections, now) && IsBatch(m, node, after, limit, batch)
    ensures DeliveryProofs.RecordsOffered(m.connections, Offer(m, batch, now).connections, batch, now, m.config.lease)
    ensures forall i :: 0 <= i < |batch| ==> batch[i].id in m.connections && m.connections[batch[i].id] == batch[i]
  {
    DeliveryProofs.BatchOfferable(m, node, after, limit, batch, now);
    DeliveryProofs.OfferRecords(m, batch, now);
  }

  lemma CopiesStored(r: Records, n: Records, batch: seq<Connection>, events: seq<Connection>, now: Time, lease: int)
    requires DeliveryProofs.RecordsOffered(r, n, batch, now, lease) && events == OfferedCopies(batch, now, lease)
    requires forall i :: 0 <= i < |batch| ==> batch[i].id in r && r[batch[i].id] == batch[i]
    ensures n.Keys == r.Keys
    ensures forall i :: 0 <= i < |events| ==>
              events[i].id in n && n[events[i].id] == events[i] && IsOffered(r[events[i].id], events[i], now, lease)
    ensures forall id :: id in r && (forall i :: 0 <= i < |events| ==> events[i].id != id) ==> n[id] == r[id]
  {
    forall i | 0 <= i < |events|
      ensures events[i].id in n && n[events[i].id] == events[i] && IsOffered(r[events[i].id], events[i], now, lease)
    {
      assert InboxMerge.HasId(batch, batch[i].id);
    }
    forall id | id in r && (forall i :: 0 <= i < |events| ==> events[i].id != id) ensures n[id] == r[id] {
      NotInBatch(batch, events, id);
    }
  }

  lemma NotInBatch(batch: seq<Connection>, events: seq<Connection>, id: string)
    requires |events| == |batch| && forall i :: 0 <= i < |batch| ==> events[i].id == batch[i].id
    ensures InboxMerge.HasId(batch, id) <==> exists i :: 0 <= i < |events| && events[i].id == id
  {
    if InboxMerge.HasId(batch, id) {
      var i :| 0 <= i < |batch| && batch[i].id == id;
      assert events[i].id == id;
    }
  }

  lemma BatchIsSmallest(m: Store, node: string, after: nat, limit: nat, batch: seq<Connection>, events: seq<Connection>)
    requires IdsOk(m.connections) && IsBatch(m, node, after, limit, batch) && |events| == |batch|
    requires forall i :: 0 <= i < |batch| ==> events[i].id == batch[i].id && events[i].cursor == batch[i].cursor
    ensures IsSmallest(m, node, after, limit, events)
  {
    forall i | 0 <= i < |events|
      ensures Waiting(m, node, after, events[i].id) && m.connections[events[i].id].cursor == events[i].cursor
    {
      assert batch[i].id in PendingIds(m, node, after);
    }
    forall id | Waiting(m, node, after, id)
      ensures (exists i :: 0 <= i < |events| && events[i].id == id) ||
              (|events| == limit && forall i :: 0 <= i < |events| ==> events[i].cursor < m.connections[id].cursor)
    {
      assert id in PendingIds(m, node, after);
      if m.connections[id] in batch {
        var i :| 0 <= i < |batch| && batch[i] == m.connections[id];
        assert events[i].id == id;
      }
    }
  }

  /** A cursor within the counter is recorded if it is larger; one beyond it changes nothing. */
  lemma AckMeans(m: Store, node: string, cursor: nat)
    ensures var n, counter, acked := Acknowledge(m, node, cursor), if node in m.cursors then m.cursors[node] else 0,
                                       if node in m.acks then m.acks[node] else 0;
            n.acks == (if acked < cursor <= counter then m.acks[node := cursor] else m.acks) &&
            n == m.(acks := n.acks)
  {
  }
}
