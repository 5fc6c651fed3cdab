/** What the invariants mean for every run of the connection protocol. */
module DeliveryTheorems {
  import opened Prelude
  import opened Topology
  import opened ConnectionStore
  import opened StoreInvariants
  import opened SweepEffect
  import opened InboxMerge
  import opened Delivery
  import opened DeliveryInvariants
  import opened DeliveryProofs

  // ----- no request is skipped -----

  /** A live record is under a lease, or queued above every cursor its target was ever told. */
  ghost predicate StillReachable(sys: Sys, id: string)
    requires id in sys.store.connections
  {
    var c := sys.store.connections[id];
    if c.state == Offered then c.leaseEnds == Some(c.updatedAt + sys.store.config.lease)
    else
      c.state == Queued && Pending(c, c.target, 0) &&
      (forall reply :: reply in LookupSet(sys.history.sent, c.target) ==> Pending(c, c.target, reply.cursor)) &&
      (forall p :: Is(sys.history.pollers, p, true) && sys.history.pollers[p].node == c.target ==>
         Pending(c, c.target, sys.history.pollers[p].after))
  }

  lemma NoRequestSkipped(trace: seq<Sys>, events: seq<Event>, i: nat, id: string)
    requires IsRun(trace, events) && i < |trace|
    requires id in trace[i].store.connections && !Terminal(trace[i].store.connections[id].state)
    ensures StillReachable(trace[i], id)
  {
    RunOk(trace, events, i);
    StoredIsReachable(trace[i], id);
  }

  lemma StoredIsReachable(sys: Sys, id: string)
    requires SysOk(sys) && id in sys.store.connections && !Terminal(sys.store.connections[id].state)
    ensures StillReachable(sys, id)
  {
    var c := sys.store.connections[id];
    assert RecordOk(c, sys.store.config, sys.clock);
    if c.state == Queued {
      forall reply | reply in LookupSet(sys.history.sent, c.target) ensures Pending(c, c.target, reply.cursor) {
        assert Promised(sys.history.promised, c.target, reply.cursor);
      }
      forall p | Is(sys.history.pollers, p, true) && sys.history.pollers[p].node == c.target
        ensures Pending(c, c.target, sys.history.pollers[p].after)
      {
        assert sys.history.pollers[p].after == 0 || Promised(sys.history.promised, c.target, sys.history.pollers[p].after);
      }
    }
  }

  lemma BatchHasOldest(m: Store, node: string, after: nat, limit: nat, batch: seq<Connection>, id: string)
    requires IsBatch(m, node, after, limit, batch) && limit > 0 && id in PendingIds(m, node, after)
    ensures batch != [] && batch[0].cursor <= m.connections[id].cursor
  {
    if m.connections[id] in batch {
      var k :| 0 <= k < |batch| && batch[k] == m.connections[id];
      assert k > 0 ==> batch[0].cursor < batch[k].cursor;
    }
  }

  /** A pass delivers whenever something is queued for its node, oldest cursor first. */
  lemma PassDeliversOldest(trace: seq<Sys>, events: seq<Event>, i: nat, id: string)
    requires IsRun(trace, events) && i < |events| && events[i].PollPass?
    requires var m := Sweep(trace[i].store, events[i].order, events[i].now);
             id in m.connections && m.connections[id].state == Queued &&
             m.connections[id].target == trace[i].history.pollers[events[i].poller].node
    ensures events[i].batch != []
    ensures events[i].batch[0].cursor <= Sweep(trace[i].store, events[i].order, events[i].now).connections[id].cursor
  {
    assert Enabled(trace[i], events[i]);
    RunOk(trace, events, i);
    SweptLink(trace[i], events[i].order, events[i].now);
    var m, h := Sweep(trace[i].store, events[i].order, events[i].now), trace[i].history;
    PassFindsOldest(m, h, h.pollers[events[i].poller], events[i].batch, id);
  }

  lemma PassFindsOldest(m: Store, h: History, p: Poller, batch: seq<Connection>, id: string)
    requires PromisedOk(m.connections, m.cursors, h.promised) && CursorsBelow(m.connections, m.cursors)
    requires p.InboxPoll? && p.limit > 0 && (p.after == 0 || Promised(h.promised, p.node, p.after))
    requires IsBatch(m, p.node, p.after, p.limit, batch)
    requires id in m.connections && m.connections[id].state == Queued && m.connections[id].target == p.node
    ensures batch != [] && batch[0].cursor <= m.connections[id].cursor
  {
    assert m.connections[id].cursor > p.after;
    BatchHasOldest(m, p.node, p.after, p.limit, batch, id);
  }

  // ----- cursors -----

  /** The cursors offered to a target over a run strictly increase. */
  lemma DeliveryOrder(trace: seq<Sys>, events: seq<Event>, i: nat, node: string, a: nat, b: nat)
    requires IsRun(trace, events) && i < |trace|
    requires a < b < |LookupSeq(trace[i].history.log, node)|
    ensures LookupSeq(trace[i].history.log, node)[a].cursor < LookupSeq(trace[i].history.log, node)[b].cursor
  {
    RunOk(trace, events, i);
  }

  /** Stored records of a target have distinct cursors between 1 and its counter. */
  lemma CursorsDistinctAndBounded(trace: seq<Sys>, events: seq<Event>, i: nat)
    requires IsRun(trace, events) && i < |trace|
    ensures CursorsBelow(trace[i].store.connections, trace[i].store.cursors) && CursorsUnique(trace[i].store.connections)
  {
    RunOk(trace, events, i);
  }

  /** The batch of a pass is determined: map order and the sort leave no choice. */
  lemma BatchUnique(s: Store, node: string, after: nat, limit: nat, a: seq<Connection>, b: seq<Connection>)
    requires IdsOk(s.connections) && CursorsUnique(s.connections)
    requires IsBatch(s, node, after, limit, a) && IsBatch(s, node, after, limit, b)
    ensures a == b
  {
    var k := if |a| <= |b| then |a| else |b|;
    BatchPrefix(s, node, after, limit, a, b, k);
    assert a[..|a|] == a && b[..|b|] == b;
    if |a| < |b| {
      BatchNotShorter(s, node, after, limit, a, b);
    } else if |b| < |a| {
      BatchNotShorter(s, node, after, limit, b, a);
    }
  }

  /** A proper prefix of a batch is not a batch. */
  lemma BatchNotShorter(s: Store, node: string, after: nat, limit: nat, a: seq<Connection>, b: seq<Connection>)
    requires IsBatch(s, node, after, limit, b) && |a| < |b| && a == b[..|a|]
    ensures !IsBatch(s, node, after, limit, a)
  {
    var c := b[|a|];
    assert c.id in PendingIds(s, node, after) && c == s.connections[c.id];
    assert forall k :: 0 <= k < |a| ==> a[k] == b[k] && b[k].cursor < c.cursor;
  }

  lemma {:induction false} BatchPrefix(s: Store, node: string, after: nat, limit: nat, a: seq<Connection>, b: seq<Connection>, k: nat)
    requires IdsOk(s.connections) && CursorsUnique(s.connections)
    requires IsBatch(s, node, after, limit, a) && IsBatch(s, node, after, limit, b) && k <= |a| && k <= |b|
    ensures a[..k] == b[..k]
  {
    if k > 0 {
      BatchPrefix(s, node, after, limit, a, b, k - 1);
      SameNext(s, node, after, limit, a, b, k - 1);
      assert a[..k] == a[..k - 1] + [a[k - 1]] && b[..k] == b[..k - 1] + [b[k - 1]];
    }
  }

  lemma SameNext(s: Store, node: string, after: nat, limit: nat, a: seq<Connection>, b: seq<Connection>, k: nat)
    requires IdsOk(s.connections) && CursorsUnique(s.connections)
    requires IsBatch(s, node, after, limit, a) && IsBatch(s, node, after, limit, b) && k < |a| && k < |b| && a[..k] == b[..k]
    ensures a[k] == b[k]
  {
    NotAhead(s, node, after, limit, a, b, k);
    NotAhead(s, node, after, limit, b, a, k);
    assert a[k].id in PendingIds(s, node, after) && b[k].id in PendingIds(s, node, after);
  }

  /** With equal prefixes, neither batch can be ahead at the next place. */
  lemma NotAhead(s: Store, node: string, after: nat, limit: nat, a: seq<Connection>, b: seq<Connection>, k: nat)
    requires IsBatch(s, node, after, limit, a) && IsBatch(s, node, after, limit, b)
    requires k < |a| && k < |b| && a[..k] == b[..k]
    ensures a[k].cursor <= b[k].cursor
  {
    var c := b[k];
    assert c.id in PendingIds(s, node, after) && c == s.connections[c.id];
    forall j | 0 <= j < k ensures a[j].cursor < c.cursor {
      assert a[j] == a[..k][j] == b[..k][j] == b[j];
    }
    if c in a {
      var j :| 0 <= j < |a| && a[j] == c;
      assert k < j ==> a[k].cursor < a[j].cursor;
    }
  }

  // ----- the delivery bound -----

  lemma {:induction false} SpacedSpan(times: seq<Time>, lease: int, k: nat)
    requires Spaced(times, lease) && 0 < k < |times|
    ensures times[k] - times[0] > k * lease
  {
    if k > 1 {
      SpacedSpan(times, lease, k - 1);
      assert k * lease == (k - 1) * lease + lease;
    }
  }

  /** A request offered n >= 2 times satisfies (n-1)*lease < lifetime. */
  lemma DeliveryBound(trace: seq<Sys>, events: seq<Event>, i: nat, id: string)
    requires IsRun(trace, events) && i < |trace|
    requires |LookupSeq(trace[i].history.offers, id)| >= 2
    ensures (|LookupSeq(trace[i].history.offers, id)| - 1) * trace[i].store.config.lease < trace[i].store.config.ttl
  {
    RunOk(trace, events, i);
    var times := trace[i].history.offers[id];
    SpacedSpan(times, trace[i].store.config.lease, |times| - 1);
  }

  // ----- no lost wakeup -----

  /** An inbox poll blocked on an open channel has nothing to wake for. */
  lemma NoLostInboxWakeup(trace: seq<Sys>, events: seq<Event>, i: nat, p: nat, id: string)
    requires IsRun(trace, events) && i < |trace|
    requires InboxBlocked(trace[i].history.pollers, p) && trace[i].history.pollers[p].phase.signal !in trace[i].store.closed
    requires id in trace[i].store.connections
    ensures !Pending(trace[i].store.connections[id], trace[i].history.pollers[p].node, trace[i].history.pollers[p].after)
  {
    RunOk(trace, events, i);
  }

  /** A status poll blocked on an open channel still sees the state it knows, and that state is not final. */
  lemma NoLostStatusWakeup(trace: seq<Sys>, events: seq<Event>, i: nat, p: nat)
    requires IsRun(trace, events) && i < |trace|
    requires StatusBlocked(trace[i].history.pollers, p) && trace[i].history.pollers[p].phase.signal !in trace[i].store.closed
    ensures StillKnown(trace[i].store.connections, trace[i].history.pollers[p])
  {
    RunOk(trace, events, i);
  }

  /** The channel a sweep drops without closing it belongs to a retired request, and nobody waits on it. */
  lemma RetiredSignalStrandsNobody(trace: seq<Sys>, events: seq<Event>, i: nat, id: string, p: nat, now: Time)
    requires IsRun(trace, events) && i < |trace|
    requires id in trace[i].store.connections && Retires(trace[i].store.connections[id], now)
    requires p in trace[i].history.pollers && trace[i].history.pollers[p].phase.Waiting?
    requires trace[i].history.pollers[p].phase.signal !in trace[i].store.closed
    ensures id in trace[i].store.requestSignals ==>
              trace[i].store.requestSignals[id] != trace[i].history.pollers[p].phase.signal
  {
    RunOk(trace, events, i);
    var h := trace[i].history;
    if Is(h.pollers, p, true) {
      assert InboxBlocked(h.pollers, p);
    } else {
      assert StatusBlocked(h.pollers, p);
      assert StillKnown(trace[i].store.connections, h.pollers[p]);
    }
  }

  /** At most one inbox poll per node, and the waiter set holds exactly the nodes that have one. */
  lemma OneInboxPollPerNode(trace: seq<Sys>, events: seq<Event>, i: nat)
    requires IsRun(trace, events) && i < |trace|
    ensures WaitersOk(trace[i].store.inboxWaiters, trace[i].history.pollers)
  {
    RunOk(trace, events, i);
  }

  // ----- inboxes and acknowledgements -----

  /** Server acknowledgement <= saved cursor <= server counter, and an owed acknowledgement is never refused. */
  lemma HonestAckAccepted(trace: seq<Sys>, events: seq<Event>, i: nat, node: string)
    requires IsRun(trace, events) && i < |trace|
    ensures Lookup(trace[i].store.acks, node) <= InboxOf(trace[i].history, node).cursor
              <= Lookup(trace[i].store.cursors, node)
    ensures forall c :: c in LookupSet(trace[i].history.owed, node) ==> AckAllowed(trace[i].store, node, c)
  {
    RunOk(trace, events, i);
    var h := trace[i].history;
    assert InboxOf(h, node).cursor == 0 || Promised(h.promised, node, InboxOf(h, node).cursor);
    forall c | c in LookupSet(h.owed, node) ensures AckAllowed(trace[i].store, node, c) {
      assert Owes(h.owed, node, c);
    }
  }

  /** A saved inbox lists distinct requests in strictly increasing cursor order, none beyond its cursor. */
  lemma InboxInOrder(trace: seq<Sys>, events: seq<Event>, i: nat, node: string)
    requires IsRun(trace, events) && i < |trace|
    ensures var inbox := InboxOf(trace[i].history, node);
            StrictlyIncreasing(inbox.events) && DistinctIds(inbox.events) &&
            forall k :: 0 <= k < |inbox.events| ==> inbox.events[k].cursor <= inbox.cursor
  {
    RunOk(trace, events, i);
  }

  // ----- capacity -----

  lemma QueueBounds(trace: seq<Sys>, events: seq<Event>, i: nat, target: string)
    requires IsRun(trace, events) && i < |trace|
    ensures |trace[i].store.connections| <= trace[i].store.config.maxStored
    ensures |LiveFor(trace[i].store.connections, target)| <= MAX_PER_TARGET
  {
    RunOk(trace, events, i);
  }

  // ----- life cycle -----

  /** State, status code, lease and instants of every record of a run fit together. */
  lemma RecordsFit(trace: seq<Sys>, events: seq<Event>, i: nat, id: string)
    requires IsRun(trace, events) && i < |trace| && id in trace[i].store.connections
    ensures RecordOk(trace[i].store.connections[id], trace[i].store.config, trace[i].clock)
  {
    RunOk(trace, events, i);
  }

  predicate SameRequest(c: Connection, d: Connection) {
    SameIdentity(c.(cursor := d.cursor), d) && c.service == d.service && c.returnRelay == d.returnRelay &&
    c.createdAt == d.createdAt && c.expiresAt == d.expiresAt
  }

  /** How one section may treat the stored records. */
  ghost predicate RecordsEvolve(r: Records, n: Records, later: Time) {
    forall id :: id in r ==>
      if id in n then SameRequest(r[id], n[id]) && (Terminal(r[id].state) ==> n[id] == r[id])
      else Terminal(r[id].state) && r[id].updatedAt + RETENTION < later
  }

  lemma SweepEvolves(s: Store, order: seq<string>, now: Time)
    requires IsOrder(order, s.connections.Keys)
    ensures RecordsEvolve(s.connections, Sweep(s, order, now).connections, now)
    ensures Sweep(s, order, now).connections.Keys <= s.connections.Keys
  {
    SweepSettles(s, order, now);
  }

  /** After the sweep a section keeps every record, final ones unchanged, and adds none that was there before. */
  ghost predicate RecordsKept(m: Records, n: Records) {
    forall id :: id in m ==> id in n && SameRequest(m[id], n[id]) && (Terminal(m[id].state) ==> n[id] == m[id])
  }

  ghost predicate OnlyNew(m: Records, n: Records, born: map<string, Time>) {
    forall id :: id in n && id !in m ==> id !in born
  }

  lemma EvolveKeep(r: Records, m: Records, n: Records, born: map<string, Time>, now: Time)
    requires RecordsEvolve(r, m, now) && RecordsKept(m, n) && OnlyNew(m, n, born) && BornOk(r, born)
    ensures RecordsEvolve(r, n, now)
  {
  }

  lemma RewriteKeeps(s: Store, c: Connection, wake: bool, born: map<string, Time>)
    requires c.id in s.connections && SameRequest(s.connections[c.id], c) && !Terminal(s.connections[c.id].state)
    ensures RecordsKept(s.connections, Rewrite(s, c, wake).connections)
    ensures OnlyNew(s.connections, Rewrite(s, c, wake).connections, born)
  {
  }

  lemma SameKept(r: Records, born: map<string, Time>)
    ensures RecordsKept(r, r) && OnlyNew(r, r, born)
  {
  }

  lemma OfferKeeps(s: Store, batch: seq<Connection>, now: Time, born: map<string, Time>)
    requires Offerable(s, batch, now)
    ensures RecordsKept(s.connections, Offer(s, batch, now).connections)
    ensures OnlyNew(s.connections, Offer(s, batch, now).connections, born)
  {
    OfferRecords(s, batch, now);
    forall id | id in s.connections && HasId(batch, id) ensures s.connections[id].state == Queued {
      var i :| 0 <= i < |batch| && batch[i].id == id;
    }
  }

  /**
   One event: the clock does not run backwards, a request keeps its identity, a final record is
   never rewritten, a record disappears only after more than a day in its final state, and no ID
   comes back.
   */
  ghost predicate Evolves(sys: Sys, n: Sys) {
    && sys.clock <= n.clock
    && RecordsEvolve(sys.store.connections, n.store.connections, n.clock)
    && OnlyNew(sys.store.connections, n.store.connections, sys.history.born)
    && (forall id :: id in sys.history.born ==> id in n.history.born)
  }

  lemma SweptIds(s: Store, order: seq<string>, now: Time)
    requires IdsOk(s.connections) && IsOrder(order, s.connections.Keys)
    ensures IdsOk(Sweep(s, order, now).connections) && Settled(Sweep(s, order, now).connections, now)
  {
    SweepSettles(s, order, now);
  }

  lemma SectionEvolves(sys: Sys, order: seq<string>, now: Time, n: Sys)
    requires BornOk(sys.store.connections, sys.history.born) && SweepEnabled(sys, order, now) && n.clock == now
    requires var m := Sweep(sys.store, order, now).connections;
             RecordsKept(m, n.store.connections) && OnlyNew(m, n.store.connections, sys.history.born)
    requires forall id :: id in sys.history.born ==> id in n.history.born
    ensures Evolves(sys, n)
  {
    SweepEvolves(sys.store, order, now);
    EvolveKeep(sys.store.connections, Sweep(sys.store, order, now).connections, n.store.connections, sys.history.born, now);
  }

  lemma SubscribedEvolves(sys: Sys, order: seq<string>, now: Time, n: Sys)
    requires BornOk(sys.store.connections, sys.history.born) && SweepEnabled(sys, order, now) && n.clock == now
    requires n.store.connections == Sweep(sys.store, order, now).connections && n.history.born == sys.history.born
    ensures Evolves(sys, n)
  {
    SameKept(n.store.connections, sys.history.born);
    SectionEvolves(sys, order, now, n);
  }

  lemma CreateEvolves(sys: Sys, e: Event)
    requires BornOk(sys.store.connections, sys.history.born) && e.Create? && Enabled(sys, e)
    ensures Evolves(sys, Apply(sys, e))
  {
    SweepEvolves(sys.store, e.order, e.now);
    SectionEvolves(sys, e.order, e.now, Apply(sys, e));
  }

  lemma PassEvolves(sys: Sys, e: Event)
    requires BornOk(sys.store.connections, sys.history.born) && IdsOk(sys.store.connections) && e.PollPass? && Enabled(sys, e)
    ensures Evolves(sys, Apply(sys, e))
  {
    if e.batch == [] {
      SubscribedEvolves(sys, e.order, e.now, Apply(sys, e));
    } else {
      SweptIds(sys.store, e.order, e.now);
      OfferKeepsBatch(Sweep(sys.store, e.order, e.now), sys.history.pollers[e.poller], e.batch, e.now, sys.history.born);
      SectionEvolves(sys, e.order, e.now, Apply(sys, e));
    }
  }

  lemma OfferKeepsBatch(m: Store, p: Poller, batch: seq<Connection>, now: Time, born: map<string, Time>)
    requires IdsOk(m.connections) && Settled(m.connections, now) && p.InboxPoll?
    requires IsBatch(m, p.node, p.after, p.limit, batch)
    ensures RecordsKept(m.connections, Offer(m, batch, now).connections)
    ensures OnlyNew(m.connections, Offer(m, batch, now).connections, born)
  {
    BatchOfferable(m, p.node, p.after, p.limit, batch, now);
    OfferKeeps(m, batch, now, born);
  }

  lemma DecideKeeps(m: Store, node: string, id: string, accept: bool, reason: string, now: Time, born: map<string, Time>)
    requires IdsOk(m.connections)
    ensures RecordsKept(m.connections, Decide(m, node, id, accept, reason, now).connections)
    ensures OnlyNew(m.connections, Decide(m, node, id, accept, reason, now).connections, born)
  {
    var state := if accept then Accepted else Rejected;
    SameKept(m.connections, born);
    if DecideVerdict(m, node, id, state).changes {
      RewriteKeeps(m, AsDecided(m.connections[id], state, if accept then 200 else 403, reason, now), false, born);
    }
  }

  lemma CancelKeeps(m: Store, node: string, id: string, reason: string, now: Time, born: map<string, Time>)
    requires IdsOk(m.connections)
    ensures RecordsKept(m.connections, Cancel(m, node, id, reason, now).connections)
    ensures OnlyNew(m.connections, Cancel(m, node, id, reason, now).connections, born)
  {
    SameKept(m.connections, born);
    if CancelVerdict(m, node, id).changes {
      RewriteKeeps(m, AsDecided(m.connections[id], Canceled, 499, reason, now), true, born);
    }
  }

  lemma DecideEvolves(sys: Sys, e: Event)
    requires BornOk(sys.store.connections, sys.history.born) && IdsOk(sys.store.connections) && e.DecideEvent? && Enabled(sys, e)
    ensures Evolves(sys, Apply(sys, e))
  {
    SweptIds(sys.store, e.order, e.now);
    DecideKeeps(Sweep(sys.store, e.order, e.now), e.node, e.id, e.accept, e.reason, e.now, sys.history.born);
    SectionEvolves(sys, e.order, e.now, Apply(sys, e));
  }

  lemma CancelEvolves(sys: Sys, e: Event)
    requires BornOk(sys.store.connections, sys.history.born) && IdsOk(sys.store.connections) && e.CancelEvent? && Enabled(sys, e)
    ensures Evolves(sys, Apply(sys, e))
  {
    SweptIds(sys.store, e.order, e.now);
    CancelKeeps(Sweep(sys.store, e.order, e.now), e.node, e.id, e.reason, e.now, sys.history.born);
    SectionEvolves(sys, e.order, e.now, Apply(sys, e));
  }

  lemma StatusEvolves(sys: Sys, e: Event)
    requires BornOk(sys.store.connections, sys.history.born) && e.StatusPass? && Enabled(sys, e)
    ensures Evolves(sys, Apply(sys, e))
  {
    StatusFrame(sys, e);
    SubscribedEvolves(sys, e.order, e.now, Apply(sys, e));
  }

  lemma StatusFrame(sys: Sys, e: Event)
    requires e.StatusPass? && Enabled(sys, e)
    ensures var n := Apply(sys, e);
            n.clock == e.now && n.history.born == sys.history.born &&
            n.store.connections == Sweep(sys.store, e.order, e.now).connections
  {
    var m, h, p := Sweep(sys.store, e.order, e.now), sys.history, e.poller;
    if StatusBlocks(m, h.pollers[p]) {
      var subscribed := SubscribeRequest(m, h.pollers[p].request);
      assert Apply(sys, e) == Sys(subscribed.0, e.now, SetPhase(h, p, Waiting(subscribed.1, 0)));
    } else {
      assert Apply(sys, e) == Sys(m, e.now, h.(pollers := h.pollers - {p}));
    }
  }

  lemma OtherEvolves(sys: Sys, e: Event)
    requires BornOk(sys.store.connections, sys.history.born) && e.OtherSweep? && Enabled(sys, e)
    ensures Evolves(sys, Apply(sys, e))
  {
    SubscribedEvolves(sys, e.order, e.now, Apply(sys, e));
  }

  lemma QuietEvolves(sys: Sys, e: Event)
    requires !Sweeps(e) && Enabled(sys, e)
    ensures Evolves(sys, Apply(sys, e))
  {
    QuietFrame(sys, e);
    SameKept(sys.store.connections, sys.history.born);
  }

  lemma QuietFrame(sys: Sys, e: Event)
    requires !Sweeps(e) && Enabled(sys, e)
    ensures var n := Apply(sys, e);
            n.clock == sys.clock && n.history.born == sys.history.born && n.store.connections == sys.store.connections
  {
  }

  lemma StepEvolves(sys: Sys, e: Event)
    requires BornOk(sys.store.connections, sys.history.born) && IdsOk(sys.store.connections) && Enabled(sys, e)
    ensures Evolves(sys, Apply(sys, e))
  {
    match e
    case Create(_, _, _, _, _, _) => CreateEvolves(sys, e);
    case PollPass(_, _, _, _, _) => PassEvolves(sys, e);
    case StatusPass(_, _, _) => StatusEvolves(sys, e);
    case DecideEvent(_, _, _, _, _, _) => DecideEvolves(sys, e);
    case CancelEvent(_, _, _, _, _) => CancelEvolves(sys, e);
    case OtherSweep(_, _) => OtherEvolves(sys, e);
    case _ => QuietEvolves(sys, e);
  }

  // ----- over whole runs -----

  /** One step as seen by one request. */
  predicate IdStep(a: Sys, b: Sys, id: string) {
    && a.clock <= b.clock
    && (id in a.store.connections ==> id in a.history.born)
    && (id in a.history.born ==> id in b.history.born)
    && (id in a.history.born && id !in a.store.connections ==> id !in b.store.connections)
    && (id in a.store.connections && id in b.store.connections ==>
          SameRequest(a.store.connections[id], b.store.connections[id]))
    && (id in a.store.connections && id in b.store.connections && Terminal(a.store.connections[id].state) ==>
          b.store.connections[id] == a.store.connections[id])
    && (id in a.store.connections && id !in b.store.connections ==>
          Terminal(a.store.connections[id].state) && a.store.connections[id].updatedAt + RETENTION < b.clock)
  }

  ghost predicate IdTrace(trace: seq<Sys>, id: string) {
    forall i, j :: 0 <= i < |trace| && j == i + 1 && j < |trace| ==> IdStep(trace[i], trace[j], id)
  }

  lemma EvolvesId(a: Sys, b: Sys, id: string)
    requires Evolves(a, b) && BornOk(a.store.connections, a.history.born)
    ensures IdStep(a, b, id)
  {
  }

  lemma RunIdTrace(trace: seq<Sys>, events: seq<Event>, id: string)
    requires IsRun(trace, events)
    ensures IdTrace(trace, id)
  {
    forall i, j | 0 <= i < |trace| && j == i + 1 && j < |trace| ensures IdStep(trace[i], trace[j], id) {
      RunOk(trace, events, i);
      StepEvolves(trace[i], events[i]);
      EvolvesId(trace[i], trace[j], id);
    }
  }

  lemma {:induction false} ClockForward(trace: seq<Sys>, i: nat, j: nat, id: string)
    requires IdTrace(trace, id) && i <= j < |trace|
    ensures trace[i].clock <= trace[j].clock
    ensures id in trace[i].history.born ==> id in trace[j].history.born
    ensures id in trace[i].history.born && id !in trace[i].store.connections ==> id !in trace[j].store.connections
    decreases j - i
  {
    if i < j {
      ClockForward(trace, i, j - 1, id);
      assert IdStep(trace[j - 1], trace[j], id);
    }
  }

  /** An issued ID whose record is gone never comes back. */
  lemma GoneForGood(trace: seq<Sys>, events: seq<Event>, i: nat, j: nat, id: string)
    requires IsRun(trace, events) && i <= j < |trace|
    requires id in trace[i].history.born && id !in trace[i].store.connections
    ensures id !in trace[j].store.connections
  {
    RunIdTrace(trace, events, id);
    ClockForward(trace, i, j, id);
  }

  lemma {:induction false} StaysFinal(trace: seq<Sys>, i: nat, j: nat, id: string)
    requires IdTrace(trace, id) && i <= j < |trace|
    requires id in trace[i].store.connections && Terminal(trace[i].store.connections[id].state)
    ensures if id in trace[j].store.connections
            then trace[j].store.connections[id] == trace[i].store.connections[id]
            else trace[i].store.connections[id].updatedAt + RETENTION < trace[j].clock
    decreases j - i
  {
    if i < j {
      assert IdStep(trace[i], trace[i + 1], id);
      ClockForward(trace, i, j - 1, id);
      StaysFinal(trace, i, j - 1, id);
      assert IdStep(trace[j - 1], trace[j], id);
    }
  }

  /** A final record stays exactly as it is until it disappears, more than a day after it became final. */
  lemma FinalRecordsStay(trace: seq<Sys>, events: seq<Event>, i: nat, j: nat, id: string)
    requires IsRun(trace, events) && i <= j < |trace|
    requires id in trace[i].store.connections && Terminal(trace[i].store.connections[id].state)
    ensures if id in trace[j].store.connections
            then trace[j].store.connections[id] == trace[i].store.connections[id]
            else trace[i].store.connections[id].updatedAt + RETENTION < trace[j].clock
  {
    RunIdTrace(trace, events, id);
    StaysFinal(trace, i, j, id);
  }

  /** The record of a request was final for more than a day at the last state that still held it. */
  ghost predicate RetiredBetween(trace: seq<Sys>, i: nat, j: nat, id: string)
    requires j < |trace|
  {
    exists k :: i <= k < j && id in trace[k].store.connections && Terminal(trace[k].store.connections[id].state) &&
                trace[k].store.connections[id].updatedAt + RETENTION < trace[j].clock
  }

  lemma RetiredLater(trace: seq<Sys>, i: nat, j: nat, next: nat, id: string)
    requires j <= next < |trace| && RetiredBetween(trace, i, j, id) && trace[j].clock <= trace[next].clock
    ensures RetiredBetween(trace, i, next, id)
  {
    var k :| i <= k < j && id in trace[k].store.connections && Terminal(trace[k].store.connections[id].state) &&
             trace[k].store.connections[id].updatedAt + RETENTION < trace[j].clock;
    assert i <= k < next;
  }

  ghost predicate StaysOrRetired(trace: seq<Sys>, i: nat, j: nat, id: string)
    requires i < |trace| && j < |trace| && id in trace[i].store.connections
  {
    if id in trace[j].store.connections
    then SameRequest(trace[i].store.connections[id], trace[j].store.connections[id])
    else RetiredBetween(trace, i, j, id)
  }

  lemma {:induction false} StaysOrRetires(trace: seq<Sys>, i: nat, j: nat, id: string)
    requires IdTrace(trace, id) && i <= j < |trace| && id in trace[i].store.connections
    ensures StaysOrRetired(trace, i, j, id)
    decreases j - i
  {
    if i < j {
      assert IdStep(trace[i], trace[i + 1], id);
      ClockForward(trace, i, j - 1, id);
      StaysOrRetires(trace, i, j - 1, id);
      assert IdStep(trace[j - 1], trace[j], id);
      if id in trace[j - 1].store.connections {
        assert i <= j - 1 < j;
      } else {
        RetiredLater(trace, i, j - 1, j, id);
      }
    }
  }

  /** A stored request keeps its identity; it can only leave by retirement. */
  lemma RequestsStay(trace: seq<Sys>, events: seq<Event>, i: nat, j: nat, id: string)
    requires IsRun(trace, events) && i <= j < |trace| && id in trace[i].store.connections
    ensures StaysOrRetired(trace, i, j, id)
  {
    RunIdTrace(trace, events, id);
    StaysOrRetires(trace, i, j, id);
  }

  // ----- idempotency -----

  /** The request a create answers with: the stored one for a known key, else the new one. */
  ghost function Answer(sys: Sys, e: Event): Option<string>
    requires e.Create? && Enabled(sys, e)
  {
    var m := Sweep(sys.store, e.order, e.now);
    var status := CreateStatus(m, e.source, e.input, e.nodes);
    if status == 200 then Some(m.idempotency[IndexKey(e.source, e.input.key)])
    else if status == 201 then Some(e.id)
    else None
  }

  /** The index and the records agree, so the inconsistent-index error is unreachable. */
  lemma IndexConsistent(trace: seq<Sys>, events: seq<Event>, i: nat)
    requires IsRun(trace, events) && i < |trace|
    ensures IndexOk(trace[i].store.connections, trace[i].store.idempotency)
    ensures forall order, source, input, nodes, now :: SweepEnabled(trace[i], order, now) ==>
              CreateStatus(Sweep(trace[i].store, order, now), source, input, nodes) != 500
  {
    RunOk(trace, events, i);
    forall order, source, input, nodes, now | SweepEnabled(trace[i], order, now)
      ensures CreateStatus(Sweep(trace[i].store, order, now), source, input, nodes) != 500
    {
      SweptIndex(trace[i].store, order, now);
      NeverInconsistent(Sweep(trace[i].store, order, now), source, input, nodes);
    }
  }

  lemma NeverInconsistent(m: Store, source: string, input: CreateInput, nodes: map<string, Node>)
    requires IndexOk(m.connections, m.idempotency)
    ensures CreateStatus(m, source, input, nodes) != 500
  {
  }

  /** After an answer the answered request is stored under the caller's source and key. */
  lemma AnswerIsStored(m: Store, source: string, input: CreateInput, nodes: map<string, Node>, id: string, now: Time)
    requires IdsOk(m.connections) && IndexOk(m.connections, m.idempotency) && NUL !in source
    ensures CreateStatus(m, source, input, nodes) == 201 ==> StoredUnder(Insert(m, source, input, id, now), id, source, input.key)
    ensures CreateStatus(m, source, input, nodes) == 200 ==>
              StoredUnder(m, m.idempotency[IndexKey(source, input.key)], source, input.key)
  {
    if CreateStatus(m, source, input, nodes) == 200 {
      var c := m.connections[m.idempotency[IndexKey(source, input.key)]];
      IndexKeyInjective(c.source, c.key, source, input.key);
    }
  }

  lemma CreateApplied(s: Sys, e: Event, m: Store)
    requires e.Create? && Enabled(s, e) && m == Sweep(s.store, e.order, e.now)
    ensures CreateStatus(m, e.source, e.input, e.nodes) == 201 ==>
              Answer(s, e) == Some(e.id) && Apply(s, e).store == Insert(m, e.source, e.input, e.id, e.now) &&
              e.id in Apply(s, e).history.born
    ensures CreateStatus(m, e.source, e.input, e.nodes) == 200 ==>
              Answer(s, e) == Some(m.idempotency[IndexKey(e.source, e.input.key)]) && Apply(s, e).store == m
    ensures CreateStatus(m, e.source, e.input, e.nodes) != 201 ==> Apply(s, e).store == m
    ensures Answer(s, e).Some? ==> CreateStatus(m, e.source, e.input, e.nodes) == 200 || CreateStatus(m, e.source, e.input, e.nodes) == 201
  {
  }

  ghost predicate StoredUnder(m: Store, id: string, source: string, key: string) {
    id in m.connections && m.connections[id].source == source && m.connections[id].key == key
  }

  lemma {:induction false} SweptIndex(s: Store, order: seq<string>, now: Time)
    requires IdsOk(s.connections) && IndexOk(s.connections, s.idempotency)
    ensures var m := Sweep(s, order, now); IdsOk(m.connections) && IndexOk(m.connections, m.idempotency)
  {
    if order != [] {
      SweptIndex(s, order[..|order| - 1], now);
      SweepOneIndex(Sweep(s, order[..|order| - 1], now), order[|order| - 1], now);
    }
  }

  lemma AnswerStored(trace: seq<Sys>, events: seq<Event>, i: nat)
    requires IsRun(trace, events) && i < |events| && events[i].Create?
    requires Enabled(trace[i], events[i]) && Answer(trace[i], events[i]).Some?
    ensures var id, n := Answer(trace[i], events[i]).value, trace[i + 1].store.connections;
            id in n && n[id].source == events[i].source && n[id].key == events[i].input.key
  {
    RunOk(trace, events, i);
    var s, e := trace[i], events[i];
    var m := Sweep(s.store, e.order, e.now);
    SweptIndex(s.store, e.order, e.now);
    AnswerIsStored(m, e.source, e.input, e.nodes, e.id, e.now);
    CreateApplied(s, e, m);
  }

  /** Two creates by one source with one key answer with one request, unless the first one had been final for over a day. */
  lemma SameKeySameRequest(trace: seq<Sys>, events: seq<Event>, i: nat, j: nat)
    requires IsRun(trace, events) && i < j < |events| && events[i].Create? && events[j].Create?
    requires events[i].source == events[j].source && events[i].input.key == events[j].input.key
    requires Enabled(trace[i], events[i]) && Answer(trace[i], events[i]).Some?
    requires Enabled(trace[j], events[j]) && Answer(trace[j], events[j]).Some?
    ensures Answer(trace[i], events[i]) == Answer(trace[j], events[j]) ||
            RetiredBetween(trace, i + 1, j + 1, Answer(trace[i], events[i]).value)
  {
    var a, b := Answer(trace[i], events[i]).value, Answer(trace[j], events[j]).value;
    AnswerStored(trace, events, i);
    AnswerStored(trace, events, j);
    RequestsStay(trace, events, i + 1, j + 1, a);
    if a in trace[j + 1].store.connections {
      RunOk(trace, events, j + 1);
      KeysUnique(trace[j + 1].store.connections, trace[j + 1].store.idempotency, a, b);
    }
  }

  // ----- which copy of a request an inbox keeps -----

  /** In every run, saving any reply ever sent keeps the newest copies exactly if the reply is nowhere older than the inbox. */
  lemma SaveKeepsNewestExactly(trace: seq<Sys>, events: seq<Event>, i: nat, node: string, reply: Inbox, merged: Inbox)
    requires IsRun(trace, events) && i < |trace|
    requires reply in LookupSet(trace[i].history.sent, node) && IsMerge(InboxOf(trace[i].history, node), reply, merged)
    ensures NewestKept(InboxOf(trace[i].history, node), reply, merged) <==> ReplyNotOlder(InboxOf(trace[i].history, node), reply)
  {
    RunOk(trace, events, i);
    assert EventsLogged(trace[i].history.log, node, reply);
    NewestKeptExactly(InboxOf(trace[i].history, node), reply, merged);
  }

  /**
   waitInbox polls with the cursor it has saved and saves the reply before anything else moves that
   cursor: every such save keeps the newest copies.
   */
  lemma WaitInboxKeepsNewest(trace: seq<Sys>, events: seq<Event>, i: nat, j: nat, merged: Inbox)
    requires IsRun(trace, events) && i < |events| && i < j < |trace| && events[i].PollPass? && events[i].batch != []
    requires events[i].poller in trace[i].history.pollers && trace[i].history.pollers[events[i].poller].InboxPoll?
    requires var p := trace[i].history.pollers[events[i].poller];
             InboxOf(trace[j].history, p.node).cursor == p.after &&
             IsMerge(InboxOf(trace[j].history, p.node), ReplyOf(events[i], trace[i].store.config.lease), merged)
    ensures var p := trace[i].history.pollers[events[i].poller];
            NewestKept(InboxOf(trace[j].history, p.node), ReplyOf(events[i], trace[i].store.config.lease), merged)
  {
    assert Enabled(trace[i], events[i]);
    RunOk(trace, events, j);
    var p := trace[i].history.pollers[events[i].poller];
    BeyondSaved(Sweep(trace[i].store, events[i].order, events[i].now), p.node, p.after, p.limit, events[i].batch,
                InboxOf(trace[j].history, p.node), ReplyOf(events[i], trace[i].store.config.lease));
    NewestKeptExactly(InboxOf(trace[j].history, p.node), ReplyOf(events[i], trace[i].store.config.lease), merged);
  }

  /** The reply a delivering pass writes. */
  function ReplyOf(e: Event, lease: int): Inbox
    requires e.PollPass? && e.batch != []
  {
    Inbox(e.batch[|e.batch| - 1].cursor, OfferedCopies(e.batch, e.now, lease))
  }

  lemma BeyondSaved(m: Store, node: string, after: nat, limit: nat, batch: seq<Connection>, saved: Inbox, reply: Inbox)
    requires IsBatch(m, node, after, limit, batch) && |reply.events| == |batch|
    requires forall k :: 0 <= k < |batch| ==> reply.events[k].cursor == batch[k].cursor
    requires saved.cursor == after && forall k :: 0 <= k < |saved.events| ==> saved.events[k].cursor <= saved.cursor
    ensures StrictlyIncreasing(reply.events) && ReplyNotOlder(saved, reply)
  {
    forall s, k: nat | s in saved.events && IsLastWithId(reply.events, k) && reply.events[k].id == s.id
      ensures s.cursor <= reply.events[k].cursor
    {
      assert batch[k].id in PendingIds(m, node, after);
    }
  }
}
