/**
 The connection handlers of the coordinator as they run under the registry's mutex:
 internal/app/connection_server.go and the connection loop of cleanupLocked in
 internal/app/coordinator_nodes.go. Each method is proved against the store operation it
 performs. A `range` over a map is a loop that picks any remaining key.
 */
module ConnectionServer {
  import opened Prelude
  import opened Topology
  import opened Sorting
  import opened ConnectionStore
  import opened StoreInvariants
  import opened SweepEffect
  import Delivery
  import DeliveryInvariants
  import DeliveryProofs

  /** What one pass of the inbox/wait loop ends in. */
  datatype PassOutcome =
    | Deliver(cursor: nat, events: seq<Connection>)
    | Block(signal: nat, cursor: nat)
    | Fault

  datatype StatusOutcome =
    | Answered(status: int, connection: Option<Connection>)
    | BlockOn(signal: nat)

  /** How a create ends on a swept store `m`. */
  ghost predicate Created(m: Store, source: string, input: CreateInput, nodes: map<string, Node>, token: Option<string>,
                          now: Time, persisted: bool, n: Store, status: int, answer: Option<Connection>) {
    var verdict := CreateStatus(m, source, input, nodes);
    var index := IndexKey(source, input.key);
    if verdict == 200 then
      n == m && status == 200 && index in m.idempotency && m.idempotency[index] in m.connections &&
      answer == Some(m.connections[m.idempotency[index]])
    else if verdict != 201 then n == m && status == verdict && answer == None
    else if token == None then n == m && status == 500 && answer == None
    else
      n == Insert(m, source, input, token.value, now) &&
      status == (if persisted then 201 else 500) &&
      answer == (if persisted then Some(NewConnection(m, source, input, token.value, now)) else None)
  }

  /** How a pass of inbox/wait ends on a swept store `m`. */
  ghost predicate Passed(m: Store, node: string, after: nat, limit: nat, now: Time, persisted: bool, dirty: bool,
                         batch: seq<Connection>, n: Store, outcome: PassOutcome) {
    IsBatch(m, node, after, limit, batch) &&
    if batch != [] then
      n == Offer(m, batch, now) &&
      outcome == if persisted then Deliver(batch[|batch| - 1].cursor, OfferedCopies(batch, now, m.config.lease)) else Fault
    else
      n == SubscribeTarget(m, node).0 &&
      outcome == if persisted || !dirty then Block(SubscribeTarget(m, node).1, Lookup(m.cursors, node)) else Fault
  }

  /** The source stores the record and then wakes the target and the request; together that is Insert. */
  lemma StoredThenNotified(s: Store, source: string, input: CreateInput, id: string, now: Time)
    ensures NotifyRequest(NotifyTarget(
              s.(cursors := s.cursors[input.target := Lookup(s.cursors, input.target) + 1],
                 connections := s.connections[id := NewConnection(s, source, input, id, now)],
                 idempotency := s.idempotency[IndexKey(source, input.key) := id]), input.target), id)
            == Insert(s, source, input, id, now)
  {
  }

  const MAX_REASON: nat := 512

  /** How a decision or cancellation answers. */
  ghost predicate Concluded(verdict: Verdict, n: Store, id: string, persisted: bool, status: int, answer: Option<Connection>) {
    if verdict.changes then
      status == (if persisted then 200 else 500) && id in n.connections &&
      answer == (if persisted then Some(n.connections[id]) else None)
    else
      status == verdict.status &&
      if verdict.status == 200 then id in n.connections && answer == Some(n.connections[id]) else answer == None
  }

  ghost function StatusAnswer(m: Store, node: string, id: string, failing: bool): StatusOutcome {
    if id !in m.connections then Answered(404, None)
    else if m.connections[id].source != node && m.connections[id].target != node then Answered(403, None)
    else if failing then Answered(500, None)
    else Answered(200, Some(m.connections[id]))
  }

  /** How a pass of the status loop ends on a swept store `m`; `failing` says that the sweep could not be written. */
  ghost predicate StatusPassed(m: Store, node: string, id: string, known: Option<ConnectionState>, wait: bool, failing: bool,
                               n: Store, outcome: StatusOutcome) {
    if wait && Delivery.StatusBlocks(m, Delivery.StatusPoll(node, id, known, Delivery.Running)) then
      n == SubscribeRequest(m, id).0 && outcome == if failing then Answered(500, None) else BlockOn(SubscribeRequest(m, id).1)
    else n == m && outcome == StatusAnswer(m, node, id, failing)
  }

  lemma OfferKeepsValid(m: Store, node: string, after: nat, limit: nat, events: seq<Connection>, now: Time)
    requires StoreOk(m, now) && Settled(m.connections, now) && IsBatch(m, node, after, limit, events)
    ensures StoreOk(Offer(m, events, now), now)
  {
    DeliveryProofs.BatchOfferable(m, node, after, limit, events, now);
    DeliveryProofs.OfferOk(m, events, now, map[]);
  }

  lemma FinishKeepsValid(m: Store, c: Connection, wake: bool, now: Time)
    requires StoreOk(m, now) && Settled(m.connections, now)
    requires c.id in m.connections && !Terminal(m.connections[c.id].state)
    requires c == AsDecided(m.connections[c.id], c.state, c.statusCode, c.reason, now)
    requires (c.state == Accepted && c.statusCode == 200) || (c.state == Rejected && c.statusCode == 403) ||
             (c.state == Canceled && c.statusCode == 499)
    ensures StoreOk(Rewrite(m, c, wake), now)
  {
    assert RecordOk(m.connections[c.id], m.config, now);
    assert !Touches(m.connections[c.id], now);
    RewriteOk(m, c, wake, now);
  }

  lemma RewrittenThenNotified(s: Store, c: Connection)
    ensures NotifyRequest(NotifyTarget(s.(connections := s.connections[c.id := c]), c.target), c.id) == Rewrite(s, c, true)
    ensures NotifyRequest(s.(connections := s.connections[c.id := c]), c.id) == Rewrite(s, c, false)
  {
  }

  ghost predicate TouchesAny(records: Records, order: seq<string>, now: Time) {
    exists id :: id in order && id in records && Touches(records[id], now)
  }

  /** The sweep of `s` has visited `order`, made `m` of it, and has `remaining` to visit. */
  ghost predicate SweptSoFar(s: Store, m: Store, order: seq<string>, remaining: set<string>, now: Time, changed: bool) {
    && remaining <= s.connections.Keys
    && IsOrder(order, s.connections.Keys - remaining)
    && m == Sweep(s, order, now)
    && (forall id :: id in remaining ==> id in m.connections && m.connections[id] == s.connections[id])
    && (changed <==> TouchesAny(s.connections, order, now))
  }

  lemma SweepVisit(s: Store, m: Store, order: seq<string>, remaining: set<string>, now: Time, changed: bool, id: string)
    requires SweptSoFar(s, m, order, remaining, now, changed) && id in remaining
    ensures SweptSoFar(s, SweepOne(m, id, now), order + [id], remaining - {id}, now,
                       changed || Touches(m.connections[id], now))
  {
    OrderVisit(s.connections.Keys, remaining - {id}, order, id);
    assert remaining - {id} + {id} == remaining;
    assert forall w :: w in order + [id] <==> w in order || w == id;
  }

  lemma AllVisited(s: Store, m: Store, order: seq<string>, now: Time, changed: bool)
    requires SweptSoFar(s, m, order, {}, now, changed)
    ensures IsOrder(order, s.connections.Keys) && m == Sweep(s, order, now)
    ensures changed <==> exists id :: id in s.connections && Touches(s.connections[id], now)
  {
    assert s.connections.Keys - {} == s.connections.Keys;
  }

  class Registry {
    const config: Config
    var connections: map<string, Connection>
    var idempotency: map<string, string>
    var cursors: map<string, nat>
    var acks: map<string, nat>
    var targetSignals: map<string, nat>
    var requestSignals: map<string, nat>
    var closed: set<nat>
    var nextSignal: nat
    var inboxWaiters: set<string>
    ghost var clock: Time

    ghost function View(): Store
      reads this
    {
      Store(config, connections, idempotency, cursors, acks, targetSignals, requestSignals, closed, nextSignal, inboxWaiters)
    }

    ghost predicate Valid()
      reads this
    {
      StoreOk(View(), clock)
    }

    constructor (config: Config, ghost now: Time)
      requires ConfigOk(config)
      ensures Valid() && View() == Empty(config) && clock == now
    {
      this.config := config;
      connections, idempotency, cursors, acks := map[], map[], map[], map[];
      targetSignals, requestSignals, closed, nextSignal, inboxWaiters := map[], map[], {}, 0, {};
      clock := now;
      new;
      EmptyStoreOk(config, now);
    }

    // ----- signals -----

    method NotifyTarget(node: string)
      modifies this`closed, this`targetSignals
      ensures View() == ConnectionStore.NotifyTarget(old(View()), node)
    {
      if node in targetSignals {
        closed := closed + {targetSignals[node]};
        targetSignals := targetSignals - {node};
      }
      assert targetSignals == old(targetSignals) - {node};
    }

    method NotifyRequest(id: string)
      modifies this`closed, this`requestSignals
      ensures View() == ConnectionStore.NotifyRequest(old(View()), id)
    {
      if id in requestSignals {
        closed := closed + {requestSignals[id]};
        requestSignals := requestSignals - {id};
      }
      assert requestSignals == old(requestSignals) - {id};
    }

    method TargetSignal(node: string) returns (signal: nat)
      modifies this`targetSignals, this`nextSignal
      ensures (View(), signal) == SubscribeTarget(old(View()), node)
    {
      if node !in targetSignals {
        targetSignals := targetSignals[node := nextSignal];
        nextSignal := nextSignal + 1;
      }
      signal := targetSignals[node];
    }

    method RequestSignal(id: string) returns (signal: nat)
      modifies this`requestSignals, this`nextSignal
      ensures (View(), signal) == SubscribeRequest(old(View()), id)
    {
      if id !in requestSignals {
        requestSignals := requestSignals[id := nextSignal];
        nextSignal := nextSignal + 1;
      }
      signal := requestSignals[id];
    }

    // ----- the sweep -----

    /** The switch of the sweep for one record. */
    method CleanupOne(id: string, now: Time) returns (changed: bool)
      requires id in connections
      modifies this`connections, this`cursors, this`idempotency, this`closed, this`targetSignals, this`requestSignals
      ensures View() == SweepOne(old(View()), id, now)
      ensures changed == Touches(old(connections[id]), now)
    {
      var c := connections[id];
      changed := true;
      if !Terminal(c.state) && c.expiresAt < now {
        connections := connections[id :=
          c.(state := Expired, statusCode := 410, reason := "request expired", updatedAt := now, leaseEnds := None)];
        NotifyTarget(c.target);
        NotifyRequest(id);
      } else if c.state == Offered && c.leaseEnds.Some? && c.leaseEnds.value < now {
        cursors := cursors[c.target := Lookup(cursors, c.target) + 1];
        connections := connections[id :=
          c.(state := Queued, statusCode := 100, cursor := cursors[c.target], updatedAt := now, leaseEnds := None)];
        NotifyTarget(c.target);
        NotifyRequest(id);
      } else if Terminal(c.state) && c.updatedAt < now - RETENTION {
        connections := connections - {id};
        idempotency := idempotency - {IndexKey(c.source, c.key)};
        requestSignals := requestSignals - {id};
      } else {
        changed := false;
        assert connections == old(connections)[id := c];
      }
    }

    /** The connection loop of cleanupLocked; `order` is the order in which the map was visited. */
    method Cleanup(now: Time) returns (changed: bool, ghost order: seq<string>)
      modifies this`connections, this`cursors, this`idempotency, this`closed, this`targetSignals, this`requestSignals
      ensures IsOrder(order, old(connections.Keys))
      ensures View() == Sweep(old(View()), order, now)
      ensures changed <==> exists id :: id in old(connections) && Touches(old(connections[id]), now)
    {
      changed, order := false, [];
      ghost var start := View();
      var remaining := connections.Keys;
      while remaining != {}
        invariant SweptSoFar(start, View(), order, remaining, now, changed)
        decreases |remaining|
      {
        var id :| id in remaining;
        SweepVisit(start, View(), order, remaining, now, changed, id);
        remaining := remaining - {id};
        var touched := CleanupOne(id, now);
        changed := changed || touched;
        order := order + [id];
      }
      AllVisited(start, View(), order, now, changed);
    }

    // ----- inbox batches -----

    /** The loop of pendingEventsLocked. */
    method CollectPending(node: string, after: nat) returns (found: seq<Connection>)
      requires IdsOk(connections)
      ensures Collected(found, connections, connections.Keys, node, after)
    {
      found := [];
      var remaining := connections.Keys;
      while remaining != {}
        invariant remaining <= connections.Keys
        invariant Collected(found, connections, connections.Keys - remaining, node, after)
        decreases |remaining|
      {
        var id :| id in remaining;
        remaining := remaining - {id};
        var c := connections[id];
        CollectNext(found, connections, connections.Keys - (remaining + {id}), node, after, id);
        if c.target == node && c.state == Queued && c.cursor > after {
          found := found + [c];
        }
        assert connections.Keys - (remaining + {id}) + {id} == connections.Keys - remaining;
      }
      assert connections.Keys - remaining == connections.Keys;
    }

    /** The pending records of a node, smallest cursors first, at most `limit` of them. */
    method PendingEvents(node: string, after: nat, limit: nat) returns (events: seq<Connection>)
      requires IdsOk(connections) && CursorsUnique(connections)
      ensures IsBatch(View(), node, after, limit, events)
    {
      var found := CollectPending(node, after);
      CursorOrder();
      var all := Sort(found, CursorBefore);
      SortedPending(View(), found, all, node, after);
      PrefixIsBatch(View(), node, after, limit, all);
      events := if |all| > limit then all[..limit] else all;
      assert all[..|all|] == all;
    }

    method CountLive(target: string) returns (count: nat)
      ensures count == |LiveFor(connections, target)|
    {
      count := 0;
      var remaining := connections.Keys;
      ghost var seen: set<string> := {};
      while remaining != {}
        invariant remaining <= connections.Keys
        invariant forall id :: id in seen <==> id !in remaining && id in LiveFor(connections, target)
        invariant count == |seen|
        decreases |remaining|
      {
        var id :| id in remaining;
        remaining := remaining - {id};
        var c := connections[id];
        if c.target == target && !Terminal(c.state) {
          count := count + 1;
          seen := seen + {id};
        }
      }
      assert seen == LiveFor(connections, target);
    }

    // ----- handlers -----

    /** The sweep at the head of a handler keeps the registry valid at the later instant. */
    method Refresh(now: Time) returns (changed: bool, ghost order: seq<string>)
      requires Valid() && clock <= now
      modifies this
      ensures Valid() && clock == now && IsOrder(order, old(connections.Keys))
      ensures View() == Sweep(old(View()), order, now) && Settled(connections, now)
      ensures connections.Keys <= old(connections.Keys)
      ensures changed <==> exists id :: id in old(connections) && Touches(old(connections[id]), now)
    {
      LaterOk(View(), clock, now);
      ghost var before := View();
      changed, order := Cleanup(now);
      SweepOk(before, order, now);
      SweepSettles(before, order, now);
      clock := now;
    }

    /**
     POST /v1/connections/request. `token` is the random request ID, None when the random source
     fails; `others` says that the sweep changed something other than connections, and the last two
     flags whether each write of the state file succeeds.
     */
    method CreateConnection(source: string, input: CreateInput, nodes: map<string, Node>, token: Option<string>,
                            now: Time, others: bool, sweepPersisted: bool, persisted: bool)
      returns (status: int, answer: Option<Connection>, ghost order: seq<string>)
      requires Valid() && clock <= now && NUL !in source
      requires token.Some? ==> token.value != "" && token.value !in connections
      modifies this
      ensures Valid()
      ensures !WellFormedInput(input) ==> status == 400 && View() == old(View()) && answer == None
      ensures WellFormedInput(input) ==> IsOrder(order, old(connections.Keys)) && clock == now
      ensures WellFormedInput(input) ==>
                var m := Sweep(old(View()), order, now);
                if !sweepPersisted && (others || !Settled(old(connections), now)) then status == 500 && View() == m && answer == None
                else Created(m, source, input, nodes, token, now, persisted, View(), status, answer)
    {
      if !WellFormedInput(input) {
        return 400, None, [];
      }
      status, answer, order := CreateAdmitted(source, input, nodes, token, now, others, sweepPersisted, persisted);
    }

    method CreateAdmitted(source: string, input: CreateInput, nodes: map<string, Node>, token: Option<string>,
                          now: Time, others: bool, sweepPersisted: bool, persisted: bool)
      returns (status: int, answer: Option<Connection>, ghost order: seq<string>)
      requires Valid() && clock <= now && NUL !in source
      requires token.Some? ==> token.value != "" && token.value !in connections
      modifies this
      ensures Valid() && IsOrder(order, old(connections.Keys)) && clock == now
      ensures var m := Sweep(old(View()), order, now);
              if !sweepPersisted && (others || !Settled(old(connections), now)) then status == 500 && View() == m && answer == None
              else Created(m, source, input, nodes, token, now, persisted, View(), status, answer)
    {
      var changed;
      changed, order := Refresh(now);
      if (changed || others) && !sweepPersisted {
        return 500, None, order;
      }
      status, answer := CreateSwept(source, input, nodes, token, now, persisted);
    }

    method CreateSwept(source: string, input: CreateInput, nodes: map<string, Node>, token: Option<string>,
                       now: Time, persisted: bool)
      returns (status: int, answer: Option<Connection>)
      requires Valid() && clock == now && NUL !in source
      requires token.Some? ==> token.value != "" && token.value !in connections
      modifies this
      ensures Valid() && clock == now
      ensures Created(old(View()), source, input, nodes, token, now, persisted, View(), status, answer)
    {
      answer := None;
      var index := IndexKey(source, input.key);
      if index in idempotency && idempotency[index] != "" {
        if idempotency[index] !in connections {
          status := 500;
          return;
        }
        status, answer := 200, Some(connections[idempotency[index]]);
        return;
      }
      status := Admit(source, input, nodes);
      if status != 201 {
        return;
      }
      if token == None {
        status := 500;
        return;
      }
      answer := StoreNew(source, input, nodes, token.value, now);
      if !persisted {
        status, answer := 500, None;
      }
    }

    /** The checks of a create whose key is not indexed, in the order the source makes them. */
    method Admit(source: string, input: CreateInput, nodes: map<string, Node>) returns (status: int)
      requires IndexKey(source, input.key) in idempotency ==> idempotency[IndexKey(source, input.key)] == ""
      ensures status == CreateStatus(View(), source, input, nodes) && status != 200
    {
      if source !in nodes || input.target !in nodes || nodes[source].network != nodes[input.target].network {
        return 404;
      }
      if input.returnRelay != "" {
        if input.returnRelay !in nodes || nodes[input.returnRelay].role != Relay || nodes[input.returnRelay].relay.None? ||
           nodes[input.returnRelay].network != nodes[source].network ||
           nodes[input.returnRelay].segment != nodes[source].segment {
          return 400;
        }
      }
      var found := FindService(nodes[input.target].services, input.service);
      if found == None {
        return 404;
      }
      if |connections| >= config.maxStored {
        return 503;
      }
      var live := CountLive(input.target);
      if live >= MAX_PER_TARGET {
        return 429;
      }
      return 201;
    }

    method StoreNew(source: string, input: CreateInput, ghost nodes: map<string, Node>, id: string, now: Time)
      returns (answer: Option<Connection>)
      requires Valid() && clock == now && NUL !in source && id != "" && id !in connections
      requires CreateStatus(View(), source, input, nodes) == 201
      modifies this`connections, this`cursors, this`idempotency, this`closed, this`targetSignals, this`requestSignals
      ensures Valid() && View() == Insert(old(View()), source, input, id, now)
      ensures answer == Some(NewConnection(old(View()), source, input, id, now))
    {
      InsertOk(View(), source, input, nodes, id, now);
      answer := InsertRecord(source, input, id, now);
    }

    method InsertRecord(source: string, input: CreateInput, id: string, now: Time) returns (answer: Option<Connection>)
      modifies this`connections, this`cursors, this`idempotency, this`closed, this`targetSignals, this`requestSignals
      ensures View() == Insert(old(View()), source, input, id, now)
      ensures answer == Some(NewConnection(old(View()), source, input, id, now))
    {
      StoredThenNotified(View(), source, input, id, now);
      cursors := cursors[input.target := Lookup(cursors, input.target) + 1];
      var connection := Connection(id, input.key, source, input.target, input.service, input.returnRelay,
                                   Queued, 100, "", cursors[input.target], now, now, now + config.ttl, None);
      connections := connections[id := connection];
      idempotency := idempotency[IndexKey(source, input.key) := id];
      NotifyTarget(input.target);
      NotifyRequest(id);
      answer := Some(connection);
    }

    /** Write a decided record and wake whoever waits for it. */
    method WriteRecord(c: Connection, wakeTarget: bool)
      modifies this`connections, this`closed, this`targetSignals, this`requestSignals
      ensures View() == Rewrite(old(View()), c, wakeTarget)
    {
      RewrittenThenNotified(View(), c);
      connections := connections[c.id := c];
      if wakeTarget {
        NotifyTarget(c.target);
      }
      NotifyRequest(c.id);
    }

    method WriteDecision(c: Connection, wakeTarget: bool, now: Time)
      requires Valid() && clock == now && Settled(connections, now)
      requires c.id in connections && !Terminal(connections[c.id].state)
      requires c == AsDecided(connections[c.id], c.state, c.statusCode, c.reason, now)
      requires (c.state == Accepted && c.statusCode == 200) || (c.state == Rejected && c.statusCode == 403) ||
               (c.state == Canceled && c.statusCode == 499)
      modifies this`connections, this`closed, this`targetSignals, this`requestSignals
      ensures Valid() && View() == Rewrite(old(View()), c, wakeTarget)
    {
      FinishKeepsValid(View(), c, wakeTarget, now);
      WriteRecord(c, wakeTarget);
    }

    /** The start of inbox/wait: at most one poll per node. */
    method BeginInboxWait(node: string) returns (status: int)
      requires Valid()
      modifies this`inboxWaiters
      ensures Valid()
      ensures if node in old(inboxWaiters) then status == 409 && View() == old(View())
              else status == 200 && View() == RegisterWaiter(old(View()), node)
    {
      WaiterChangeOk(View(), node, clock);
      if node in inboxWaiters {
        return 409;
      }
      inboxWaiters := inboxWaiters + {node};
      status := 200;
    }

    method EndInboxWait(node: string)
      requires Valid()
      modifies this`inboxWaiters
      ensures Valid() && View() == ReleaseWaiter(old(View()), node)
    {
      WaiterChangeOk(View(), node, clock);
      inboxWaiters := inboxWaiters - {node};
    }

    /** Mark one record of a batch offered. */
    method OfferOne(c: Connection, now: Time) returns (offered: Connection)
      modifies this`connections, this`closed, this`requestSignals
      ensures View() == ConnectionStore.OfferOne(old(View()), c, now)
      ensures offered == AsOffered(c, now, config.lease)
    {
      offered := c.(state := Offered, statusCode := 102, updatedAt := now, leaseEnds := Some(now + config.lease));
      connections := connections[c.id := offered];
      NotifyRequest(c.id);
    }

    method OfferAll(events: seq<Connection>, now: Time) returns (offered: seq<Connection>)
      modifies this`connections, this`closed, this`requestSignals
      ensures View() == Offer(old(View()), events, now)
      ensures offered == OfferedCopies(events, now, config.lease)
    {
      offered := [];
      for i := 0 to |events|
        invariant View() == Offer(old(View()), events[..i], now)
        invariant |offered| == i
        invariant forall j :: 0 <= j < i ==> offered[j] == AsOffered(events[j], now, config.lease)
      {
        assert events[..i + 1][..i] == events[..i];
        var copy := OfferOne(events[i], now);
        offered := offered + [copy];
      }
      assert events[..|events|] == events;
    }

    /** One pass of the inbox/wait loop. `persisted` says whether the state file could be written. */
    method InboxPass(node: string, after: nat, limit: nat, now: Time, others: bool, persisted: bool)
      returns (outcome: PassOutcome, ghost order: seq<string>, ghost batch: seq<Connection>)
      requires Valid() && clock <= now
      modifies this
      ensures Valid() && clock == now && IsOrder(order, old(connections.Keys))
      ensures Passed(Sweep(old(View()), order, now), node, after, limit, now, persisted,
                     others || !Settled(old(connections), now), batch, View(), outcome)
    {
      var changed;
      changed, order := Refresh(now);
      outcome, batch := PassSwept(node, after, limit, now, persisted, changed || others);
    }

    method PassSwept(node: string, after: nat, limit: nat, now: Time, persisted: bool, dirty: bool)
      returns (outcome: PassOutcome, ghost batch: seq<Connection>)
      requires Valid() && clock == now && Settled(connections, now)
      modifies this
      ensures Valid() && clock == now
      ensures Passed(old(View()), node, after, limit, now, persisted, dirty, batch, View(), outcome)
    {
      var events := PendingEvents(node, after, limit);
      batch := events;
      if |events| > 0 {
        var offered := this.OfferBatch(node, after, limit, events, now);
        outcome := if persisted then Deliver(events[|events| - 1].cursor, offered) else Fault;
      } else {
        SubscribeTargetOk(View(), node, now);
        var signal := TargetSignal(node);
        var cursor := Lookup(cursors, node);
        outcome := if dirty && !persisted then Fault else Block(signal, cursor);
      }
    }

    method OfferBatch(ghost node: string, ghost after: nat, ghost limit: nat, events: seq<Connection>, now: Time)
      returns (offered: seq<Connection>)
      requires Valid() && clock == now && Settled(connections, now) && IsBatch(View(), node, after, limit, events)
      modifies this`connections, this`closed, this`requestSignals
      ensures Valid() && View() == Offer(old(View()), events, now)
      ensures offered == OfferedCopies(events, now, config.lease)
    {
      OfferKeepsValid(View(), node, after, limit, events, now);
      offered := OfferAll(events, now);
    }

    /** POST /v1/connections/inbox/ack */
    method AckInbox(node: string, cursor: nat, persisted: bool) returns (status: int, acknowledged: nat)
      requires Valid()
      modifies this`acks
      ensures Valid() && View() == Acknowledge(old(View()), node, cursor)
      ensures acknowledged == Lookup(acks, node)
      ensures status == if !AckAllowed(old(View()), node, cursor) then 409
                        else if cursor > Lookup(old(acks), node) && !persisted then 500 else 200
    {
      AcknowledgeOk(View(), node, cursor, clock);
      acknowledged := Lookup(acks, node);
      if cursor > Lookup(cursors, node) {
        return 409, acknowledged;
      }
      status := 200;
      if cursor > Lookup(acks, node) {
        acks := acks[node := cursor];
        acknowledged := cursor;
        status := if persisted then 200 else 500;
      }
    }

    /** POST /v1/connections/accept and /reject by `node`; `reason` has been trimmed. */
    method Decide(node: string, id: string, accept: bool, reason: string, now: Time, others: bool, sweepPersisted: bool, persisted: bool)
      returns (status: int, answer: Option<Connection>, ghost order: seq<string>)
      requires Valid() && clock <= now
      modifies this
      ensures Valid()
      ensures id == "" || ByteLength(reason) > MAX_REASON ==> status == 400 && View() == old(View()) && answer == None
      ensures id != "" && ByteLength(reason) <= MAX_REASON ==> IsOrder(order, old(connections.Keys)) && clock == now
      ensures id != "" && ByteLength(reason) <= MAX_REASON ==>
                var m := Sweep(old(View()), order, now);
                if !sweepPersisted && (others || !Settled(old(connections), now)) then status == 500 && View() == m && answer == None
                else
                  View() == ConnectionStore.Decide(m, node, id, accept, reason, now) &&
                  Concluded(DecideVerdict(m, node, id, if accept then Accepted else Rejected), View(), id, persisted, status, answer)
    {
      order, answer := [], None;
      if id == "" || ByteLength(reason) > MAX_REASON {
        status := 400;
        return;
      }
      var changed;
      changed, order := Refresh(now);
      if (changed || others) && !sweepPersisted {
        status := 500;
        return;
      }
      status, answer := DecideSwept(node, id, accept, reason, now, persisted);
    }

    method DecideSwept(node: string, id: string, accept: bool, reason: string, now: Time, persisted: bool)
      returns (status: int, answer: Option<Connection>)
      requires Valid() && clock == now && Settled(connections, now)
      modifies this`connections, this`closed, this`targetSignals, this`requestSignals
      ensures Valid() && View() == ConnectionStore.Decide(old(View()), node, id, accept, reason, now)
      ensures Concluded(DecideVerdict(old(View()), node, id, if accept then Accepted else Rejected), View(), id, persisted, status, answer)
    {
      answer := None;
      var state, code := if accept then Accepted else Rejected, if accept then 200 else 403;
      if id !in connections {
        return 404, None;
      }
      var c := connections[id];
      if c.target != node {
        return 403, None;
      }
      if c.state == state {
        return 200, Some(c);
      }
      if Terminal(c.state) || (c.state != Queued && c.state != Offered) {
        return 409, None;
      }
      var decided := c.(state := state, statusCode := code, reason := reason, updatedAt := now, leaseEnds := None);
      WriteDecision(decided, false, now);
      status, answer := if persisted then 200 else 500, if persisted then Some(decided) else None;
    }

    /** POST /v1/connections/cancel by `node`; `reason` has been trimmed. */
    method Cancel(node: string, id: string, reason: string, now: Time, others: bool, sweepPersisted: bool, persisted: bool)
      returns (status: int, answer: Option<Connection>, ghost order: seq<string>)
      requires Valid() && clock <= now
      modifies this
      ensures Valid()
      ensures id == "" || ByteLength(reason) > MAX_REASON ==> status == 400 && View() == old(View()) && answer == None
      ensures id != "" && ByteLength(reason) <= MAX_REASON ==> IsOrder(order, old(connections.Keys)) && clock == now
      ensures id != "" && ByteLength(reason) <= MAX_REASON ==>
                var m := Sweep(old(View()), order, now);
                if !sweepPersisted && (others || !Settled(old(connections), now)) then status == 500 && View() == m && answer == None
                else
                  View() == ConnectionStore.Cancel(m, node, id, reason, now) &&
                  Concluded(CancelVerdict(m, node, id), View(), id, persisted, status, answer)
    {
      order, answer := [], None;
      if id == "" || ByteLength(reason) > MAX_REASON {
        status := 400;
        return;
      }
      var changed;
      changed, order := Refresh(now);
      if (changed || others) && !sweepPersisted {
        status := 500;
        return;
      }
      status, answer := CancelSwept(node, id, reason, now, persisted);
    }

    method CancelSwept(node: string, id: string, reason: string, now: Time, persisted: bool)
      returns (status: int, answer: Option<Connection>)
      requires Valid() && clock == now && Settled(connections, now)
      modifies this`connections, this`closed, this`targetSignals, this`requestSignals
      ensures Valid() && View() == ConnectionStore.Cancel(old(View()), node, id, reason, now)
      ensures Concluded(CancelVerdict(old(View()), node, id), View(), id, persisted, status, answer)
    {
      answer := None;
      if id !in connections {
        return 404, None;
      }
      var c := connections[id];
      if c.source != node {
        return 403, None;
      }
      if c.state == Canceled {
        return 200, Some(c);
      }
      if Terminal(c.state) {
        return 409, None;
      }
      var canceled := c.(state := Canceled, statusCode := 499, reason := reason, updatedAt := now, leaseEnds := None);
      WriteDecision(canceled, true, now);
      status, answer := if persisted then 200 else 500, if persisted then Some(canceled) else None;
    }

    /** One pass of the status loop; `wait` is false for the plain status request. */
    method StatusPass(node: string, id: string, known: Option<ConnectionState>, wait: bool, now: Time,
                      others: bool, persisted: bool)
      returns (outcome: StatusOutcome, ghost order: seq<string>)
      requires Valid() && clock <= now
      modifies this
      ensures Valid() && clock == now && IsOrder(order, old(connections.Keys))
      ensures StatusPassed(Sweep(old(View()), order, now), node, id, known, wait,
                           (others || !Settled(old(connections), now)) && !persisted, View(), outcome)
    {
      var changed;
      changed, order := Refresh(now);
      outcome := StatusSwept(node, id, known, wait, now, (changed || others) && !persisted);
    }

    method StatusSwept(node: string, id: string, known: Option<ConnectionState>, wait: bool, now: Time, failing: bool)
      returns (outcome: StatusOutcome)
      requires Valid() && clock == now
      modifies this`requestSignals, this`nextSignal
      ensures Valid()
      ensures StatusPassed(old(View()), node, id, known, wait, failing, View(), outcome)
    {
      if id !in connections {
        return Answered(404, None);
      }
      var c := connections[id];
      if c.source != node && c.target != node {
        return Answered(403, None);
      }
      if !wait || Some(c.state) != known || Terminal(c.state) {
        return if failing then Answered(500, None) else Answered(200, Some(c));
      }
      SubscribeRequestOk(View(), id, now);
      var signal := RequestSignal(id);
      outcome := if failing then Answered(500, None) else BlockOn(signal);
    }
  }

  /** The pending records among those visited, each once. */
  ghost predicate Collected(found: seq<Connection>, r: Records, done: set<string>, node: string, after: nat) {
    && DistinctBy(found, (c: Connection) => c.id)
    && (forall c :: c in found <==> c.id in done && c.id in r && r[c.id] == c && Pending(c, node, after))
  }

  lemma CollectNext(found: seq<Connection>, r: Records, done: set<string>, node: string, after: nat, id: string)
    requires IdsOk(r) && Collected(found, r, done, node, after) && id in r && id !in done
    ensures Collected(if Pending(r[id], node, after) then found + [r[id]] else found, r, done + {id}, node, after)
  {
  }

  lemma SortedPending(s: Store, found: seq<Connection>, all: seq<Connection>, node: string, after: nat)
    requires IdsOk(s.connections) && CursorsUnique(s.connections)
    requires Collected(found, s.connections, s.connections.Keys, node, after)
    requires SortedBy(all, CursorBefore) && multiset(all) == multiset(found)
    ensures StrictlyIncreasing(all)
    ensures forall c :: c in all <==> c.id in s.connections && s.connections[c.id] == c && Pending(c, node, after)
  {
    SameElements(all, found);
    DistinctKept(found, all, (c: Connection) => c.id);
    forall i, j | 0 <= i < j < |all| ensures all[i].cursor < all[j].cursor {
      assert all[i] in found && all[j] in found && all[i].id != all[j].id;
      assert !CursorBefore(all[j], all[i]);
    }
  }

  lemma PrefixIsBatch(s: Store, node: string, after: nat, limit: nat, all: seq<Connection>)
    requires StrictlyIncreasing(all) && IdsOk(s.connections)
    requires forall c :: c in all <==> c.id in s.connections && s.connections[c.id] == c && Pending(c, node, after)
    ensures IsBatch(s, node, after, limit, all[..if |all| > limit then limit else |all|])
  {
    var events := all[..if |all| > limit then limit else |all|];
    forall i | 0 <= i < |events| ensures events[i].id in PendingIds(s, node, after) && events[i] == s.connections[events[i].id] {
      assert events[i] == all[i] && all[i] in all;
    }
    forall id | id in PendingIds(s, node, after)
      ensures s.connections[id] in events ||
              (|events| == limit && forall i :: 0 <= i < |events| ==> events[i].cursor < s.connections[id].cursor)
    {
      var c := s.connections[id];
      assert c in all;
      var k :| 0 <= k < |all| && all[k] == c;
      if k < |events| {
        assert events[k] == c;
      } else {
        assert forall i :: 0 <= i < |events| ==> events[i] == all[i];
      }
    }
  }
}
