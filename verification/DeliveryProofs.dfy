/** Every event of a run keeps the invariants of DeliveryInvariants. */
module DeliveryProofs {
  import opened Prelude
  import opened Topology
  import opened ConnectionStore
  import opened StoreInvariants
  import opened SweepEffect
  import opened InboxMerge
  import opened Delivery
  import opened DeliveryInvariants

  // ----- create -----

  lemma InsertPromised(s: Store, source: string, input: CreateInput, id: string, now: Time, promised: CursorSets)
    requires PromisedOk(s.connections, s.cursors, promised)
    ensures var n := Insert(s, source, input, id, now); PromisedOk(n.connections, n.cursors, promised)
  {
  }

  lemma InsertWakes(s: Store, source: string, input: CreateInput, id: string, now: Time, pollers: Pollers)
    requires InboxWakeOk(s.connections, s.targetSignals, s.closed, s.nextSignal, pollers)
    requires StatusWakeOk(s.connections, s.requestSignals, s.closed, s.nextSignal, pollers)
    ensures var n := Insert(s, source, input, id, now);
            InboxWakeOk(n.connections, n.targetSignals, n.closed, n.nextSignal, pollers) &&
            StatusWakeOk(n.connections, n.requestSignals, n.closed, n.nextSignal, pollers)
  {
    var indexed := s.(cursors := s.cursors[input.target := Lookup(s.cursors, input.target) + 1],
                      idempotency := s.idempotency[IndexKey(source, input.key) := id]);
    var c := NewConnection(s, source, input, id, now);
    RewriteInboxWake(indexed, c, true, pollers);
    RewriteStatusWake(indexed, c, true, pollers);
  }

  lemma InsertLink(s: Store, source: string, input: CreateInput, id: string, now: Time, h: History)
    requires LinkOk(s, now, h) && id !in h.born
    ensures LinkOk(Insert(s, source, input, id, now), now, h.(born := h.born[id := now]))
  {
    InsertPromised(s, source, input, id, now, h.promised);
    InsertWakes(s, source, input, id, now, h.pollers);
    var n := Insert(s, source, input, id, now).connections;
    assert BornOk(n, h.born[id := now]);
    assert LastOfferOk(n, s.config, h.offers);
  }

  lemma CreateOk(sys: Sys, e: Event)
    requires SysOk(sys) && e.Create? && Enabled(sys, e)
    ensures SysOk(Apply(sys, e))
  {
    SweptLink(sys, e.order, e.now);
    var m := Sweep(sys.store, e.order, e.now);
    if CreateStatus(m, e.source, e.input, e.nodes) == 201 {
      assert e.id !in m.connections;
      InsertOk(m, e.source, e.input, e.nodes, e.id, e.now);
      InsertLink(m, e.source, e.input, e.id, e.now, sys.history);
    }
  }

  // ----- decisions -----

  /** Writing a decision on a live record of a settled store. */
  lemma FinishOk(m: Store, c: Connection, wake: bool, now: Time, h: History)
    requires StoreOk(m, now) && LinkOk(m, now, h) && MailOk(m, h) && Settled(m.connections, now)
    requires c.id in m.connections && !Terminal(m.connections[c.id].state)
    requires c == AsDecided(m.connections[c.id], c.state, c.statusCode, c.reason, now)
    requires (c.state == Accepted && c.statusCode == 200) || (c.state == Rejected && c.statusCode == 403) ||
             (c.state == Canceled && c.statusCode == 499)
    ensures SysOk(Sys(Rewrite(m, c, wake), now, h))
  {
    assert RecordOk(m.connections[c.id], m.config, now);
    assert !Touches(m.connections[c.id], now);
    RewriteOk(m, c, wake, now);
    RewriteLink(m, c, wake, now, h);
  }

  lemma DecideOk(m: Store, node: string, id: string, accept: bool, reason: string, now: Time, h: History)
    requires StoreOk(m, now) && LinkOk(m, now, h) && MailOk(m, h) && Settled(m.connections, now)
    ensures SysOk(Sys(Decide(m, node, id, accept, reason, now), now, h))
  {
    var state := if accept then Accepted else Rejected;
    if DecideVerdict(m, node, id, state).changes {
      assert m.connections[id].id == id;
      FinishOk(m, AsDecided(m.connections[id], state, if accept then 200 else 403, reason, now), false, now, h);
    }
  }

  lemma CancelOk(m: Store, node: string, id: string, reason: string, now: Time, h: History)
    requires StoreOk(m, now) && LinkOk(m, now, h) && MailOk(m, h) && Settled(m.connections, now)
    ensures SysOk(Sys(Cancel(m, node, id, reason, now), now, h))
  {
    if CancelVerdict(m, node, id).changes {
      assert m.connections[id].id == id;
      FinishOk(m, AsDecided(m.connections[id], Canceled, 499, reason, now), true, now, h);
    }
  }

  // ----- a batch of offers -----

  /** The records a pass may offer: queued, distinct and not expired. */
  ghost predicate Offerable(s: Store, events: seq<Connection>, now: Time) {
    && DistinctIds(events)
    && (forall i :: 0 <= i < |events| ==>
          events[i].id in s.connections && events[i] == s.connections[events[i].id] &&
          events[i].state == Queued && now <= events[i].expiresAt)
  }

  /** What a batch of offers does to the records. */
  ghost predicate RecordsOffered(r: Records, n: Records, events: seq<Connection>, now: Time, lease: int) {
    && n.Keys == r.Keys
    && (forall id :: id in n ==> n[id] == if HasId(events, id) then AsOffered(r[id], now, lease) else r[id])
  }

  ghost predicate WakesOk(s: Store, pollers: Pollers) {
    && InboxWakeOk(s.connections, s.targetSignals, s.closed, s.nextSignal, pollers)
    && StatusWakeOk(s.connections, s.requestSignals, s.closed, s.nextSignal, pollers)
  }

  ghost predicate SameCounters(s: Store, n: Store) {
    n.config == s.config && n.cursors == s.cursors && n.acks == s.acks && n.inboxWaiters == s.inboxWaiters
  }

  lemma OfferOneOk(s: Store, c: Connection, now: Time, pollers: Pollers)
    requires StoreOk(s, now) && WakesOk(s, pollers)
    requires c.id in s.connections && c == s.connections[c.id] && c.state == Queued && now <= c.expiresAt
    ensures StoreOk(OfferOne(s, c, now), now) && WakesOk(OfferOne(s, c, now), pollers)
  {
    var offered := AsOffered(c, now, s.config.lease);
    assert RecordOk(c, s.config, now);
    RewriteOk(s, offered, false, now);
    RewriteInboxWake(s, offered, false, pollers);
    RewriteStatusWake(s, offered, false, pollers);
  }

  lemma {:induction false} OfferRecords(s: Store, events: seq<Connection>, now: Time)
    requires Offerable(s, events, now)
    ensures SameCounters(s, Offer(s, events, now))
    ensures RecordsOffered(s.connections, Offer(s, events, now).connections, events, now, s.config.lease)
  {
    if events != [] {
      var front := events[..|events| - 1];
      OfferRecords(s, front, now);
      OfferedStep(s.connections, Offer(s, front, now).connections, events, now, s.config.lease);
    }
  }

  lemma {:induction false} OfferOk(s: Store, events: seq<Connection>, now: Time, pollers: Pollers)
    requires StoreOk(s, now) && WakesOk(s, pollers) && Offerable(s, events, now)
    ensures StoreOk(Offer(s, events, now), now) && WakesOk(Offer(s, events, now), pollers)
  {
    if events != [] {
      var front, last := events[..|events| - 1], events[|events| - 1];
      assert !HasId(front, last.id);
      OfferRecords(s, front, now);
      var m := Offer(s, front, now);
      assert last.id in m.connections && m.connections[last.id] == last;
      OfferOk(s, front, now, pollers);
      OfferOneOk(m, last, now, pollers);
    }
  }

  lemma OfferedStep(r: Records, m: Records, events: seq<Connection>, now: Time, lease: int)
    requires events != [] && events[|events| - 1].id in r && events[|events| - 1] == r[events[|events| - 1].id]
    requires RecordsOffered(r, m, events[..|events| - 1], now, lease)
    ensures var last := events[|events| - 1];
            RecordsOffered(r, m[last.id := AsOffered(last, now, lease)], events, now, lease)
  {
    forall id ensures HasId(events, id) <==> HasId(events[..|events| - 1], id) || events[|events| - 1].id == id {
      HasIdFront(events, id);
    }
  }

  // ----- a pass that delivers -----

  /** A batch taken from a settled store is offerable, and leaves nothing queued at or below its cursors. */
  lemma BatchOfferable(s: Store, node: string, after: nat, limit: nat, batch: seq<Connection>, now: Time)
    requires IdsOk(s.connections) && Settled(s.connections, now) && IsBatch(s, node, after, limit, batch)
    ensures Offerable(s, batch, now)
    ensures forall i :: 0 <= i < |batch| ==> batch[i].target == node && batch[i].state == Queued
  {
    forall i | 0 <= i < |batch|
      ensures batch[i].id in s.connections && batch[i].target == node && batch[i].state == Queued && now <= batch[i].expiresAt
    {
      assert batch[i].id in PendingIds(s, node, after);
      assert !Touches(s.connections[batch[i].id], now);
    }
    forall i, j | 0 <= i < j < |batch| ensures batch[i].id != batch[j].id {
      assert batch[i].cursor < batch[j].cursor;
    }
  }

  lemma DeliverPromised(s: Store, n: Records, node: string, after: nat, limit: nat, batch: seq<Connection>,
                        now: Time, promised: CursorSets)
    requires PromisedOk(s.connections, s.cursors, promised) && CursorsBelow(s.connections, s.cursors) && IdsOk(s.connections)
    requires after == 0 || Promised(promised, node, after)
    requires IsBatch(s, node, after, limit, batch) && limit > 0 && Offerable(s, batch, now)
    requires forall i :: 0 <= i < |batch| ==> batch[i].target == node
    requires RecordsOffered(s.connections, n, batch, now, s.config.lease)
    ensures PromisedOk(n, s.cursors, promised[node := LookupSet(promised, node) + CursorsOf(batch)])
  {
    var more := promised[node := LookupSet(promised, node) + CursorsOf(batch)];
    forall m, c: nat | Promised(more, m, c) ensures c <= Lookup(s.cursors, m) {
      PromisedOrInBatch(promised, node, batch, m, c);
    }
    forall id, c: nat | id in n && n[id].state == Queued && Promised(more, n[id].target, c) ensures c < n[id].cursor {
      PromisedOrInBatch(promised, node, batch, n[id].target, c);
      StillQueued(s.connections, n, batch, now, s.config.lease, id);
      if !Promised(promised, n[id].target, c) {
        LeftoverAbove(s, node, after, limit, batch, id, promised);
      }
    }
  }

  lemma PromisedOrInBatch(promised: CursorSets, node: string, batch: seq<Connection>, m: string, c: nat)
    requires Promised(promised[node := LookupSet(promised, node) + CursorsOf(batch)], m, c)
    ensures Promised(promised, m, c) || (m == node && exists i :: 0 <= i < |batch| && batch[i].cursor == c)
  {
  }

  lemma StillQueued(r: Records, n: Records, batch: seq<Connection>, now: Time, lease: int, id: string)
    requires RecordsOffered(r, n, batch, now, lease) && id in n && n[id].state == Queued
    ensures !HasId(batch, id) && id in r && n[id] == r[id]
  {
  }

  /** What a batch leaves queued for its node lies above every cursor of the batch. */
  lemma LeftoverAbove(s: Store, node: string, after: nat, limit: nat, batch: seq<Connection>, id: string, promised: CursorSets)
    requires PromisedOk(s.connections, s.cursors, promised) && CursorsBelow(s.connections, s.cursors)
    requires after == 0 || Promised(promised, node, after)
    requires IsBatch(s, node, after, limit, batch) && limit > 0
    requires id in s.connections && s.connections[id].target == node && s.connections[id].state == Queued
    requires !HasId(batch, id) && s.connections[id].id == id
    ensures |batch| == limit && forall i :: 0 <= i < |batch| ==> batch[i].cursor < s.connections[id].cursor
  {
    assert s.connections[id].cursor > after;
    assert id in PendingIds(s, node, after);
    assert s.connections[id] !in batch;
  }

  /** The history of a delivering pass, by its fields. */
  lemma DeliverOffers(s: Store, batch: seq<Connection>, now: Time, born: map<string, Time>, offers: map<string, seq<Time>>)
    requires RecordsOk(s.connections, s.config, now) && IdsOk(s.connections) && Offerable(s, batch, now)
    requires BornOk(s.connections, born) && LastOfferOk(s.connections, s.config, offers) && OffersOk(s.config, now, born, offers)
    ensures OffersOk(s.config, now, born, RecordOffers(offers, batch, now))
  {
    var more := RecordOffers(offers, batch, now);
    forall id | id in more ensures TimesOk(more[id], id, s.config, born, now) {
      if HasId(batch, id) {
        var i :| 0 <= i < |batch| && batch[i].id == id;
        OfferAgain(s, id, now, born, offers);
        assert more[id] == LookupSeq(offers, id) + [now];
      } else {
        assert more[id] == offers[id] + [];
        assert more[id] == offers[id];
        assert TimesOk(offers[id], id, s.config, born, now);
      }
    }
    assert forall id :: id in more ==> TimesOk(more[id], id, s.config, born, now);
  }

  ghost predicate TimesOk(times: seq<Time>, id: string, config: Config, born: map<string, Time>, now: Time) {
    id in born && Spaced(times, config.lease) && |times| > 0 &&
    forall i :: 0 <= i < |times| ==> born[id] <= times[i] <= born[id] + config.ttl && times[i] <= now
  }

  /** A queued record that may be offered now: a further offer keeps the spacing and lies within its life. */
  lemma OfferAgain(s: Store, id: string, now: Time, born: map<string, Time>, offers: map<string, seq<Time>>)
    requires id in s.connections && s.connections[id].state == Queued && now <= s.connections[id].expiresAt
    requires RecordOk(s.connections[id], s.config, now) && id in born && born[id] == s.connections[id].createdAt
    requires LastOfferOk(s.connections, s.config, offers)
    requires id in offers ==> TimesOk(offers[id], id, s.config, born, now)
    ensures TimesOk(LookupSeq(offers, id) + [now], id, s.config, born, now)
  {
  }

  lemma DeliverLast(s: Store, n: Records, batch: seq<Connection>, now: Time, born: map<string, Time>, offers: map<string, seq<Time>>)
    requires RecordsOffered(s.connections, n, batch, now, s.config.lease)
    requires BornOk(s.connections, born) && LastOfferOk(s.connections, s.config, offers)
    ensures BornOk(n, born) && LastOfferOk(n, s.config, RecordOffers(offers, batch, now))
  {
    var more := RecordOffers(offers, batch, now);
    forall id | id in n && id in more && |more[id]| > 0
      ensures n[id].state == Offered ==> more[id][|more[id]| - 1] == n[id].updatedAt
      ensures n[id].state == Queued ==> more[id][|more[id]| - 1] + s.config.lease < n[id].updatedAt
    {
      LastOf(offers, batch, now, id);
    }
  }

  lemma LastOf(offers: map<string, seq<Time>>, batch: seq<Connection>, now: Time, id: string)
    requires id in RecordOffers(offers, batch, now)
    ensures var times := RecordOffers(offers, batch, now)[id];
            if HasId(batch, id) then |times| > 0 && times[|times| - 1] == now else id in offers && times == offers[id]
  {
    if !HasId(batch, id) {
      assert offers[id] + [] == offers[id];
    }
  }

  lemma LeavingWakes(s: Store, pollers: Pollers, p: nat, phase: Phase)
    requires WakesOk(s, pollers) && p in pollers && !phase.Waiting?
    ensures WakesOk(s, pollers[p := WithPhase(pollers[p], phase)])
  {
  }

  lemma PhaseFrame(pollers: Pollers, p: nat, phase: Phase)
    requires p in pollers
    ensures var n := pollers[p := WithPhase(pollers[p], phase)];
            forall q :: (q in n <==> q in pollers) &&
              (q in n ==> n[q].node == pollers[q].node && n[q].InboxPoll? == pollers[q].InboxPoll?) &&
              (q in n && n[q].InboxPoll? ==> n[q].after == pollers[q].after && n[q].limit == pollers[q].limit)
  {
  }

  lemma PhaseWaiters(waiters: set<string>, pollers: Pollers, p: nat, phase: Phase)
    requires WaitersOk(waiters, pollers) && p in pollers
    ensures WaitersOk(waiters, pollers[p := WithPhase(pollers[p], phase)])
  {
    var n := pollers[p := WithPhase(pollers[p], phase)];
    PhaseFrame(pollers, p, phase);
    forall w | w in waiters ensures exists q :: Is(n, q, true) && n[q].node == w {
      var q :| Is(pollers, q, true) && pollers[q].node == w;
      assert Is(n, q, true) && n[q].node == w;
    }
  }

  lemma PhaseMail(waiters: set<string>, promised: CursorSets, pollers: Pollers, p: nat, phase: Phase)
    requires WaitersOk(waiters, pollers) && AfterOk(promised, pollers) && p in pollers
    requires Is(pollers, p, true) && phase.Waiting? ==> Promised(promised, pollers[p].node, phase.cursor)
    ensures WaitersOk(waiters, pollers[p := WithPhase(pollers[p], phase)])
    ensures AfterOk(promised, pollers[p := WithPhase(pollers[p], phase)])
  {
    PhaseWaiters(waiters, pollers, p, phase);
    PhaseFrame(pollers, p, phase);
  }

  /** Promising more cursors keeps what rests on earlier promises. */
  lemma MorePromised(h: History, node: string, more: set<nat>)
    requires AfterOk(h.promised, h.pollers) && LogOk(h.log, h.promised)
    requires SentOk(h.log, h.promised, h.sent) && InboxesOk(h.log, h.promised, h.inboxes)
    ensures var promised := h.promised[node := LookupSet(h.promised, node) + more];
            AfterOk(promised, h.pollers) && LogOk(h.log, promised) &&
            SentOk(h.log, promised, h.sent) && InboxesOk(h.log, promised, h.inboxes)
  {
    var promised := h.promised[node := LookupSet(h.promised, node) + more];
    forall n, c: nat | Promised(h.promised, n, c) ensures Promised(promised, n, c) {
    }
  }

  ghost predicate LogGrows(before: map<string, seq<Offering>>, after: map<string, seq<Offering>>) {
    forall n, c: nat, id :: Logged(before, n, c, id) ==> Logged(after, n, c, id)
  }

  /** Appending a batch to the log keeps it strictly increasing and what was logged stays logged. */
  lemma LogAppend(log: map<string, seq<Offering>>, node: string, batch: seq<Connection>, now: Time, promised: CursorSets)
    requires LogOk(log, promised) && StrictlyIncreasing(batch)
    requires forall i, c: nat :: 0 <= i < |batch| && Promised(promised, node, c) ==> c < batch[i].cursor
    ensures var more := log[node := LookupSeq(log, node) + Offerings(batch, now)];
            LogOk(more, promised[node := LookupSet(promised, node) + CursorsOf(batch)]) &&
            LogGrows(log, more) &&
            (forall i :: 0 <= i < |batch| ==> Logged(more, node, batch[i].cursor, batch[i].id))
  {
    LogAppendOk(log, node, batch, now, promised);
    LogAppendGrows(log, node, batch, now);
  }

  lemma LogAppendOk(log: map<string, seq<Offering>>, node: string, batch: seq<Connection>, now: Time, promised: CursorSets)
    requires LogOk(log, promised) && StrictlyIncreasing(batch)
    requires forall i, c: nat :: 0 <= i < |batch| && Promised(promised, node, c) ==> c < batch[i].cursor
    ensures LogOk(log[node := LookupSeq(log, node) + Offerings(batch, now)],
                  promised[node := LookupSet(promised, node) + CursorsOf(batch)])
  {
    var earlier: seq<Offering> := LookupSeq(log, node);
    var added := Offerings(batch, now);
    var more: map<string, seq<Offering>> := log[node := earlier + added];
    var extended := promised[node := LookupSet(promised, node) + CursorsOf(batch)];
    forall i, j | 0 <= i < j < |earlier + added| ensures (earlier + added)[i].cursor < (earlier + added)[j].cursor {
      if i < |earlier| && j >= |earlier| {
        assert Promised(promised, node, earlier[i].cursor);
      }
    }
    forall n, i | n in more && 0 <= i < |more[n]| ensures Promised(extended, n, more[n][i].cursor) {
      if n == node && i >= |earlier| {
        assert more[n][i].cursor == batch[i - |earlier|].cursor;
      } else {
        assert Promised(promised, n, more[n][i].cursor);
      }
    }
  }

  lemma LogAppendGrows(log: map<string, seq<Offering>>, node: string, batch: seq<Connection>, now: Time)
    ensures var more := log[node := LookupSeq(log, node) + Offerings(batch, now)];
            LogGrows(log, more) && (forall i :: 0 <= i < |batch| ==> Logged(more, node, batch[i].cursor, batch[i].id))
  {
    var earlier: seq<Offering> := LookupSeq(log, node);
    var added := Offerings(batch, now);
    var more: map<string, seq<Offering>> := log[node := earlier + added];
    forall n, c: nat, id | Logged(log, n, c, id) ensures Logged(more, n, c, id) {
      var i :| 0 <= i < |LookupSeq(log, n)| && LookupSeq(log, n)[i].cursor == c && LookupSeq(log, n)[i].id == id;
      assert LookupSeq(more, n)[i] == LookupSeq(log, n)[i];
    }
    forall i | 0 <= i < |batch| ensures Logged(more, node, batch[i].cursor, batch[i].id) {
      assert LookupSeq(more, node)[|earlier| + i] == added[i];
    }
  }

  lemma MoreLogged(before: map<string, seq<Offering>>, after: map<string, seq<Offering>>, promised: CursorSets,
                   sent: map<string, set<Inbox>>, inboxes: map<string, Inbox>)
    requires LogGrows(before, after) && SentOk(before, promised, sent) && InboxesOk(before, promised, inboxes)
    ensures SentOk(after, promised, sent) && InboxesOk(after, promised, inboxes)
  {
    forall n, reply | reply in LookupSet(sent, n) ensures EventsLogged(after, n, reply) {
      assert EventsLogged(before, n, reply);
    }
    forall n | n in inboxes ensures EventsLogged(after, n, inboxes[n]) {
      assert EventsLogged(before, n, inboxes[n]);
    }
  }

  lemma SendReply(log: map<string, seq<Offering>>, promised: CursorSets, sent: map<string, set<Inbox>>, node: string, reply: Inbox)
    requires SentOk(log, promised, sent) && Promised(promised, node, reply.cursor) && EventsLogged(log, node, reply)
    requires StrictlyIncreasing(reply.events)
    ensures SentOk(log, promised, sent[node := LookupSet(sent, node) + {reply}])
  {
    var more: map<string, set<Inbox>> := sent[node := LookupSet(sent, node) + {reply}];
    forall n, r | r in LookupSet(more, n)
      ensures Promised(promised, n, r.cursor) && EventsLogged(log, n, r) && StrictlyIncreasing(r.events)
    {
      assert r in LookupSet(sent, n) || (n == node && r == reply);
    }
  }

  // ----- a pass of inbox/wait -----

  ghost predicate PassReady(m: Store, now: Time, h: History, p: nat, batch: seq<Connection>) {
    && StoreOk(m, now) && LinkOk(m, now, h) && MailOk(m, h) && Settled(m.connections, now)
    && Is(h.pollers, p, true) && h.pollers[p].phase == Running
    && IsBatch(m, h.pollers[p].node, h.pollers[p].after, h.pollers[p].limit, batch)
  }

  lemma DeliverLink(m: Store, now: Time, h: History, p: nat, batch: seq<Connection>, persisted: bool)
    requires PassReady(m, now, h, p, batch) && batch != []
    ensures StoreOk(Offer(m, batch, now), now)
    ensures LinkOk(Offer(m, batch, now), now, Deliver(h, p, batch, persisted, now, m.config.lease))
  {
    var node, after, limit := h.pollers[p].node, h.pollers[p].after, h.pollers[p].limit;
    BatchOfferable(m, node, after, limit, batch, now);
    OfferRecords(m, batch, now);
    OfferOk(m, batch, now, h.pollers);
    var n := Offer(m, batch, now);
    LeavingWakes(n, h.pollers, p, Leaving);
    DeliverPromised(m, n.connections, node, after, limit, batch, now, h.promised);
    DeliverOffers(m, batch, now, h.born, h.offers);
    DeliverLast(m, n.connections, batch, now, h.born, h.offers);
  }

  lemma ReplyLogged(log: map<string, seq<Offering>>, node: string, batch: seq<Connection>, now: Time, lease: int)
    requires batch != [] && StrictlyIncreasing(batch)
    requires forall i :: 0 <= i < |batch| ==> Logged(log, node, batch[i].cursor, batch[i].id)
    ensures EventsLogged(log, node, Inbox(batch[|batch| - 1].cursor, OfferedCopies(batch, now, lease)))
    ensures StrictlyIncreasing(OfferedCopies(batch, now, lease))
  {
    var events := OfferedCopies(batch, now, lease);
    forall i | 0 <= i < |events|
      ensures Logged(log, node, events[i].cursor, events[i].id) && events[i].cursor <= batch[|batch| - 1].cursor
    {
      assert Logged(log, node, batch[i].cursor, batch[i].id);
      assert i < |batch| - 1 ==> batch[i].cursor < batch[|batch| - 1].cursor;
    }
  }

  lemma DeliverLog(m: Store, now: Time, h: History, p: nat, batch: seq<Connection>)
    requires PassReady(m, now, h, p, batch) && batch != []
    ensures var node := h.pollers[p].node;
            var more := h.log[node := LookupSeq(h.log, node) + Offerings(batch, now)];
            LogOk(more, h.promised[node := LookupSet(h.promised, node) + CursorsOf(batch)]) && LogGrows(h.log, more) &&
            (forall i :: 0 <= i < |batch| ==> Logged(more, node, batch[i].cursor, batch[i].id))
  {
    var node := h.pollers[p].node;
    BatchOfferable(m, node, h.pollers[p].after, h.pollers[p].limit, batch, now);
    forall i, c: nat | 0 <= i < |batch| && Promised(h.promised, node, c) ensures c < batch[i].cursor {
      assert batch[i].id in m.connections;
    }
    LogAppend(h.log, node, batch, now, h.promised);
  }

  lemma DeliverMail(m: Store, now: Time, h: History, p: nat, batch: seq<Connection>, persisted: bool)
    requires PassReady(m, now, h, p, batch) && batch != []
    ensures MailOk(m, Deliver(h, p, batch, persisted, now, m.config.lease))
  {
    var node := h.pollers[p].node;
    var d := Deliver(h, p, batch, persisted, now, m.config.lease);
    DeliverLog(m, now, h, p, batch);
    MorePromised(h, node, CursorsOf(batch));
    PhaseMail(m.inboxWaiters, d.promised, h.pollers, p, Leaving);
    MoreLogged(h.log, d.log, d.promised, h.sent, h.inboxes);
    if persisted {
      ReplyLogged(d.log, node, batch, now, m.config.lease);
      assert batch[|batch| - 1].cursor in CursorsOf(batch);
      SendReply(d.log, d.promised, h.sent, node, Inbox(batch[|batch| - 1].cursor, OfferedCopies(batch, now, m.config.lease)));
    }
  }

  lemma DeliverOk(m: Store, now: Time, h: History, p: nat, batch: seq<Connection>, persisted: bool)
    requires PassReady(m, now, h, p, batch) && batch != []
    ensures SysOk(Sys(Offer(m, batch, now), now, Deliver(h, p, batch, persisted, now, m.config.lease)))
  {
    BatchOfferable(m, h.pollers[p].node, h.pollers[p].after, h.pollers[p].limit, batch, now);
    OfferRecords(m, batch, now);
    DeliverLink(m, now, h, p, batch, persisted);
    DeliverMail(m, now, h, p, batch, persisted);
  }

  lemma NothingPending(m: Store, now: Time, h: History, p: nat)
    requires PassReady(m, now, h, p, [])
    ensures NoneQueued(m.connections, h.pollers[p].node)
  {
    var node, after := h.pollers[p].node, h.pollers[p].after;
    assert after == 0 || Promised(h.promised, node, after);
    forall id | id in m.connections && m.connections[id].target == node ensures m.connections[id].state != Queued {
      assert id !in PendingIds(m, node, after);
    }
  }

  lemma CounterPromised(r: Records, counters: map<string, nat>, promised: CursorSets, node: string)
    requires PromisedOk(r, counters, promised) && NoneQueued(r, node)
    ensures PromisedOk(r, counters, promised[node := LookupSet(promised, node) + {Lookup(counters, node)}])
  {
    var more := promised[node := LookupSet(promised, node) + {Lookup(counters, node)}];
    forall n, c: nat | Promised(more, n, c) ensures c <= Lookup(counters, n) {
      assert Promised(promised, n, c) || (n == node && c == Lookup(counters, node));
    }
    forall id, c: nat | id in r && r[id].state == Queued && Promised(more, r[id].target, c) ensures c < r[id].cursor {
      assert Promised(promised, r[id].target, c);
    }
  }

  /** A pass that finds nothing blocks on the channel of its node; a failed persist only drops the poll. */
  ghost function BlockedPhase(m: Store, node: string, persisted: bool): Phase {
    if persisted then Waiting(SubscribeTarget(m, node).1, Lookup(m.cursors, node)) else Leaving
  }

  lemma BlockWakes(m: Store, node: string, pollers: Pollers, p: nat, persisted: bool)
    requires SignalsOk(m) && WakesOk(m, pollers) && Is(pollers, p, true) && pollers[p].node == node
    requires NoneQueued(m.connections, node)
    ensures WakesOk(SubscribeTarget(m, node).0, pollers[p := WithPhase(pollers[p], BlockedPhase(m, node, persisted))])
  {
  }

  lemma BlockMail(m: Store, h: History, p: nat, persisted: bool)
    requires MailOk(m, h) && Is(h.pollers, p, true)
    ensures var node := h.pollers[p].node;
            MailOk(SubscribeTarget(m, node).0,
              SetPhase(h, p, BlockedPhase(m, node, persisted))
                .(promised := h.promised[node := LookupSet(h.promised, node) + {Lookup(m.cursors, node)}]))
  {
    var node := h.pollers[p].node;
    var promised := h.promised[node := LookupSet(h.promised, node) + {Lookup(m.cursors, node)}];
    MorePromised(h, node, {Lookup(m.cursors, node)});
    assert Promised(promised, node, Lookup(m.cursors, node));
    PhaseMail(m.inboxWaiters, promised, h.pollers, p, BlockedPhase(m, node, persisted));
  }

  lemma BlockOk(m: Store, now: Time, h: History, p: nat, persisted: bool)
    requires PassReady(m, now, h, p, [])
    ensures var node := h.pollers[p].node;
            SysOk(Sys(SubscribeTarget(m, node).0, now,
              SetPhase(h, p, BlockedPhase(m, node, persisted))
                .(promised := h.promised[node := LookupSet(h.promised, node) + {Lookup(m.cursors, node)}])))
  {
    var node := h.pollers[p].node;
    NothingPending(m, now, h, p);
    SubscribeTargetOk(m, node, now);
    BlockWakes(m, node, h.pollers, p, persisted);
    CounterPromised(m.connections, m.cursors, h.promised, node);
    BlockMail(m, h, p, persisted);
  }

  lemma PollPassOk(sys: Sys, e: Event)
    requires SysOk(sys) && e.PollPass? && Enabled(sys, e)
    ensures SysOk(Apply(sys, e))
  {
    SweptLink(sys, e.order, e.now);
    var m := Sweep(sys.store, e.order, e.now);
    if e.batch != [] {
      DeliverOk(m, e.now, sys.history, e.poller, e.batch, e.persisted);
    } else {
      BlockOk(m, e.now, sys.history, e.poller, e.persisted);
    }
  }

  // ----- the other poll events -----

  lemma StartMail(waiters: set<string>, promised: CursorSets, pollers: Pollers, p: nat, poller: Poller)
    requires WaitersOk(waiters, pollers) && AfterOk(promised, pollers) && p !in pollers
    requires poller.InboxPoll? && poller.phase == Running && poller.limit > 0 && poller.node !in waiters
    requires poller.after == 0 || Promised(promised, poller.node, poller.after)
    ensures WaitersOk(waiters + {poller.node}, pollers[p := poller]) && AfterOk(promised, pollers[p := poller])
  {
    var n := pollers[p := poller];
    forall w | w in waiters + {poller.node} ensures exists q :: Is(n, q, true) && n[q].node == w {
      if w != poller.node {
        var q :| Is(pollers, q, true) && pollers[q].node == w;
        assert Is(n, q, true) && n[q].node == w;
      } else {
        assert Is(n, p, true);
      }
    }
  }

  lemma StartOk(s: Store, clock: Time, h: History, p: nat, poller: Poller)
    requires SysOk(Sys(s, clock, h)) && p !in h.pollers
    requires poller.InboxPoll? && poller.phase == Running && poller.limit > 0 && poller.node !in s.inboxWaiters
    requires poller.after == 0 || Promised(h.promised, poller.node, poller.after)
    ensures SysOk(Sys(RegisterWaiter(s, poller.node), clock, h.(pollers := h.pollers[p := poller])))
  {
    WaiterChangeOk(s, poller.node, clock);
    StartMail(s.inboxWaiters, h.promised, h.pollers, p, poller);
    AddedWakes(s, h.pollers, p, poller);
  }

  lemma ReturnedIsPromised(h: History, node: string, cursor: nat)
    requires SentOk(h.log, h.promised, h.sent) && CursorReturned(h, node, cursor)
    ensures Promised(h.promised, node, cursor)
  {
  }

  lemma PollStartOk(sys: Sys, e: Event)
    requires SysOk(sys) && e.PollStart? && Enabled(sys, e)
    ensures SysOk(Apply(sys, e))
  {
    if e.after != 0 {
      ReturnedIsPromised(sys.history, e.node, e.after);
    }
    StartOk(sys.store, sys.clock, sys.history, e.poller, InboxPoll(e.node, e.after, InboxLimit(e.maxEvents), Running));
  }

  lemma AddedWakes(s: Store, pollers: Pollers, p: nat, poller: Poller)
    requires WakesOk(s, pollers) && !poller.phase.Waiting?
    ensures WakesOk(s, pollers[p := poller])
  {
  }

  lemma RemovedWakes(s: Store, pollers: Pollers, p: nat)
    requires WakesOk(s, pollers)
    ensures WakesOk(s, pollers - {p})
  {
  }

  lemma LeaveMail(waiters: set<string>, promised: CursorSets, pollers: Pollers, p: nat)
    requires WaitersOk(waiters, pollers) && AfterOk(promised, pollers) && Is(pollers, p, true)
    ensures WaitersOk(waiters - {pollers[p].node}, pollers - {p}) && AfterOk(promised, pollers - {p})
  {
    var n := pollers - {p};
    forall w | w in waiters - {pollers[p].node} ensures exists q :: Is(n, q, true) && n[q].node == w {
      var q :| Is(pollers, q, true) && pollers[q].node == w;
      assert Is(n, q, true) && n[q].node == w;
    }
  }

  lemma PollLeaveOk(sys: Sys, e: Event)
    requires SysOk(sys) && e.PollLeave? && Enabled(sys, e)
    ensures SysOk(Apply(sys, e))
  {
    var h := sys.history;
    WaiterChangeOk(sys.store, h.pollers[e.poller].node, sys.clock);
    LeaveMail(sys.store.inboxWaiters, h.promised, h.pollers, e.poller);
    RemovedWakes(sys.store, h.pollers, e.poller);
  }

  /** Wake, timeout and abort of a blocked poll. */
  lemma UnblockOk(sys: Sys, p: nat, phase: Phase)
    requires SysOk(sys) && p in sys.history.pollers && !phase.Waiting?
    ensures SysOk(sys.(history := SetPhase(sys.history, p, phase)))
  {
    LeavingWakes(sys.store, sys.history.pollers, p, phase);
    PhaseMail(sys.store.inboxWaiters, sys.history.promised, sys.history.pollers, p, phase);
  }

  lemma TimeoutOk(sys: Sys, e: Event)
    requires SysOk(sys) && e.PollTimeout? && Enabled(sys, e)
    ensures SysOk(Apply(sys, e))
  {
    var h := sys.history;
    var node, reply := h.pollers[e.poller].node, Inbox(h.pollers[e.poller].phase.cursor, []);
    assert InboxBlocked(h.pollers, e.poller);
    SendReply(h.log, h.promised, h.sent, node, reply);
    UnblockOk(sys, e.poller, Leaving);
  }

  // ----- status polls -----

  ghost predicate SameInboxPolls(pollers: Pollers, n: Pollers) {
    forall q :: Is(n, q, true) == Is(pollers, q, true) && (Is(n, q, true) ==> n[q] == pollers[q])
  }

  lemma StatusMail(waiters: set<string>, promised: CursorSets, pollers: Pollers, n: Pollers)
    requires WaitersOk(waiters, pollers) && AfterOk(promised, pollers) && SameInboxPolls(pollers, n)
    ensures WaitersOk(waiters, n) && AfterOk(promised, n)
  {
    forall w | w in waiters ensures exists q :: Is(n, q, true) && n[q].node == w {
      var q :| Is(pollers, q, true) && pollers[q].node == w;
      assert Is(n, q, true) && n[q].node == w;
    }
  }

  lemma StatusBlockWakes(m: Store, pollers: Pollers, p: nat)
    requires SignalsOk(m) && WakesOk(m, pollers) && Is(pollers, p, false) && StatusBlocks(m, pollers[p])
    ensures var (n, signal) := SubscribeRequest(m, pollers[p].request);
            WakesOk(n, pollers[p := WithPhase(pollers[p], Waiting(signal, 0))])
  {
  }

  lemma StatusPassOk(sys: Sys, e: Event)
    requires SysOk(sys) && e.StatusPass? && Enabled(sys, e)
    ensures SysOk(Apply(sys, e))
  {
    SweptLink(sys, e.order, e.now);
    var m := Sweep(sys.store, e.order, e.now);
    var h := sys.history;
    if StatusBlocks(m, h.pollers[e.poller]) {
      StatusBlockOk(m, e.now, h, e.poller);
    } else {
      StatusGoneOk(m, e.now, h, e.poller);
    }
  }

  lemma StatusBlockLink(m: Store, now: Time, h: History, p: nat)
    requires StoreOk(m, now) && LinkOk(m, now, h) && Is(h.pollers, p, false) && StatusBlocks(m, h.pollers[p])
    ensures var (n, signal) := SubscribeRequest(m, h.pollers[p].request);
            StoreOk(n, now) && LinkOk(n, now, SetPhase(h, p, Waiting(signal, 0)))
  {
    SubscribeRequestOk(m, h.pollers[p].request, now);
    StatusBlockWakes(m, h.pollers, p);
  }

  lemma StatusBlockOk(m: Store, now: Time, h: History, p: nat)
    requires StoreOk(m, now) && LinkOk(m, now, h) && MailOk(m, h) && Is(h.pollers, p, false) && StatusBlocks(m, h.pollers[p])
    ensures var (n, signal) := SubscribeRequest(m, h.pollers[p].request);
            SysOk(Sys(n, now, SetPhase(h, p, Waiting(signal, 0))))
  {
    StatusBlockLink(m, now, h, p);
    StatusPhaseMail(m, h, p, Waiting(SubscribeRequest(m, h.pollers[p].request).1, 0));
  }

  lemma StatusPhaseMail(m: Store, h: History, p: nat, phase: Phase)
    requires MailOk(m, h) && Is(h.pollers, p, false)
    ensures MailOk(m, SetPhase(h, p, phase))
  {
    StatusMail(m.inboxWaiters, h.promised, h.pollers, h.pollers[p := WithPhase(h.pollers[p], phase)]);
  }

  lemma StatusGoneOk(m: Store, now: Time, h: History, p: nat)
    requires StoreOk(m, now) && LinkOk(m, now, h) && MailOk(m, h) && Is(h.pollers, p, false)
    ensures SysOk(Sys(m, now, h.(pollers := h.pollers - {p})))
  {
    RemovedWakes(m, h.pollers, p);
    StatusMail(m.inboxWaiters, h.promised, h.pollers, h.pollers - {p});
  }

  lemma StatusStartOk(sys: Sys, e: Event)
    requires SysOk(sys) && e.StatusStart? && Enabled(sys, e)
    ensures SysOk(Apply(sys, e))
  {
    var h := sys.history;
    var poller := StatusPoll(e.node, e.request, e.known, Running);
    AddedWakes(sys.store, h.pollers, e.poller, poller);
    StatusMail(sys.store.inboxWaiters, h.promised, h.pollers, h.pollers[e.poller := poller]);
  }

  // ----- nodes -----

  lemma AckOk(sys: Sys, e: Event)
    requires SysOk(sys) && e.Ack? && Enabled(sys, e)
    ensures SysOk(Apply(sys, e))
  {
    AcknowledgeOk(sys.store, e.node, e.cursor, sys.clock);
    OwedAck(sys.store.acks, sys.history.inboxes, sys.history.owed, e.node, e.cursor);
  }

  lemma OwedAck(acks: map<string, nat>, inboxes: map<string, Inbox>, owed: CursorSets, node: string, cursor: nat)
    requires AcksOk(acks, inboxes) && OwedOk(inboxes, owed) && cursor in LookupSet(owed, node)
    ensures AcksOk(acks[node := cursor], inboxes)
  {
    assert Owes(owed, node, cursor);
  }

  /** Two logged events of a node with one cursor are offers of the same request. */
  lemma LoggedUnique(log: map<string, seq<Offering>>, promised: CursorSets, node: string, cursor: nat, a: string, b: string)
    requires LogOk(log, promised) && Logged(log, node, cursor, a) && Logged(log, node, cursor, b)
    ensures a == b
  {
  }

  /** The events of a merge come from the saved inbox or the reply, and sort strictly. */
  lemma MergedEvents(log: map<string, seq<Offering>>, promised: CursorSets, node: string, saved: Inbox, reply: Inbox, merged: Inbox)
    requires LogOk(log, promised) && EventsLogged(log, node, saved) && EventsLogged(log, node, reply)
    requires IsMerge(saved, reply, merged)
    ensures EventsLogged(log, node, merged) && DistinctIds(merged.events)
  {
    MergeKeeps(saved, reply, merged);
    forall i | 0 <= i < |merged.events|
      ensures Logged(log, node, merged.events[i].cursor, merged.events[i].id) && merged.events[i].cursor <= merged.cursor
    {
      var c := merged.events[i];
      assert c in reply.events || c in saved.events;
      if c in reply.events {
        var j :| 0 <= j < |reply.events| && reply.events[j] == c;
      } else {
        var j :| 0 <= j < |saved.events| && saved.events[j] == c;
      }
    }
  }

  lemma MergedIncreasing(log: map<string, seq<Offering>>, promised: CursorSets, node: string, merged: Inbox)
    requires LogOk(log, promised) && EventsLogged(log, node, merged) && DistinctIds(merged.events)
    requires SortedByCursor(merged.events)
    ensures StrictlyIncreasing(merged.events)
  {
    forall i, j | 0 <= i < j < |merged.events| ensures merged.events[i].cursor < merged.events[j].cursor {
      if merged.events[i].cursor == merged.events[j].cursor {
        LoggedUnique(log, promised, node, merged.events[i].cursor, merged.events[i].id, merged.events[j].id);
      }
    }
  }

  lemma SaveMail(h: History, acks: map<string, nat>, node: string, reply: Inbox, merged: Inbox)
    requires LogOk(h.log, h.promised) && SentOk(h.log, h.promised, h.sent) && InboxesOk(h.log, h.promised, h.inboxes)
    requires OwedOk(h.inboxes, h.owed) && AcksOk(acks, h.inboxes)
    requires reply in LookupSet(h.sent, node) && IsMerge(InboxOf(h, node), reply, merged)
    ensures InboxesOk(h.log, h.promised, h.inboxes[node := merged])
    ensures OwedOk(h.inboxes[node := merged], h.owed[node := LookupSet(h.owed, node) + {reply.cursor}])
    ensures OwedOk(h.inboxes[node := merged], h.owed)
    ensures AcksOk(acks, h.inboxes[node := merged])
  {
    MergedEvents(h.log, h.promised, node, InboxOf(h, node), reply, merged);
    MergedIncreasing(h.log, h.promised, node, merged);
    SavedOwes(h.inboxes, h.owed, node, merged, reply.cursor);
    SavedInbox(h.log, h.promised, h.inboxes, acks, node, merged);
  }

  lemma SavedInbox(log: map<string, seq<Offering>>, promised: CursorSets, inboxes: map<string, Inbox>, acks: map<string, nat>,
                   node: string, merged: Inbox)
    requires InboxesOk(log, promised, inboxes) && AcksOk(acks, inboxes)
    requires merged.cursor == 0 || Promised(promised, node, merged.cursor)
    requires EventsLogged(log, node, merged) && StrictlyIncreasing(merged.events) && DistinctIds(merged.events)
    requires node in inboxes ==> merged.cursor >= inboxes[node].cursor
    ensures InboxesOk(log, promised, inboxes[node := merged]) && AcksOk(acks, inboxes[node := merged])
  {
  }

  lemma SavedOwes(inboxes: map<string, Inbox>, owed: CursorSets, node: string, merged: Inbox, cursor: nat)
    requires OwedOk(inboxes, owed) && merged.cursor >= cursor && (node in inboxes ==> merged.cursor >= inboxes[node].cursor)
    ensures OwedOk(inboxes[node := merged], owed)
    ensures OwedOk(inboxes[node := merged], owed[node := LookupSet(owed, node) + {cursor}])
  {
    var more := owed[node := LookupSet(owed, node) + {cursor}];
    forall n, c: nat | Owes(more, n, c) ensures Owes(owed, n, c) || (n == node && c == cursor) {
    }
  }

  /** Removing a request keeps the order of the others. */
  lemma {:induction false} WithoutSorted(events: seq<Connection>, id: string)
    requires StrictlyIncreasing(events) && DistinctIds(events)
    ensures StrictlyIncreasing(Without(events, id)) && DistinctIds(Without(events, id))
  {
    if events != [] {
      WithoutSorted(events[..|events| - 1], id);
      var front := Without(events[..|events| - 1], id);
      forall i | 0 <= i < |front|
        ensures front[i].cursor < events[|events| - 1].cursor && front[i].id != events[|events| - 1].id
      {
        assert front[i] in events[..|events| - 1];
      }
    }
  }

  lemma ForgetMail(h: History, acks: map<string, nat>, node: string, id: string)
    requires InboxesOk(h.log, h.promised, h.inboxes) && OwedOk(h.inboxes, h.owed) && AcksOk(acks, h.inboxes)
    ensures var n := h.inboxes[node := InboxOf(h, node).(events := Without(InboxOf(h, node).events, id))];
            InboxesOk(h.log, h.promised, n) && OwedOk(n, h.owed) && AcksOk(acks, n)
  {
    var inbox := InboxOf(h, node);
    WithoutSorted(inbox.events, id);
    var events := Without(inbox.events, id);
    forall i | 0 <= i < |events|
      ensures Logged(h.log, node, events[i].cursor, events[i].id) && events[i].cursor <= inbox.cursor
    {
      assert events[i] in inbox.events;
      var j :| 0 <= j < |inbox.events| && inbox.events[j] == events[i];
    }
    var kept := inbox.(events := events);
    assert EventsLogged(h.log, node, kept);
    KeepInbox(h, acks, node, kept);
  }

  lemma KeepInbox(h: History, acks: map<string, nat>, node: string, kept: Inbox)
    requires InboxesOk(h.log, h.promised, h.inboxes) && OwedOk(h.inboxes, h.owed) && AcksOk(acks, h.inboxes)
    requires kept.cursor == InboxOf(h, node).cursor && EventsLogged(h.log, node, kept)
    requires StrictlyIncreasing(kept.events) && DistinctIds(kept.events)
    ensures var n := h.inboxes[node := kept];
            InboxesOk(h.log, h.promised, n) && OwedOk(n, h.owed) && AcksOk(acks, n)
  {
  }

  lemma ForgetOk(sys: Sys, e: Event)
    requires SysOk(sys) && e.NodeForget? && Enabled(sys, e)
    ensures SysOk(Apply(sys, e))
  {
    ForgetMail(sys.history, sys.store.acks, e.node, e.id);
  }

  // ----- runs -----

  lemma InitOk(config: Config, clock: Time)
    requires config.ttl > 0 && config.lease > 0
    ensures SysOk(Init(config, clock))
  {
    EmptyStoreOk(config, clock);
    EmptyHistoryOk(Init(config, clock).history, Empty(config), clock);
  }

  lemma EmptyHistoryOk(h: History, s: Store, clock: Time)
    requires h == History(map[], map[], map[], map[], map[], map[], map[], map[])
    requires s.connections == map[] && s.acks == map[] && s.inboxWaiters == {}
    ensures LinkOk(s, clock, h) && MailOk(s, h)
  {
  }

  lemma DecideEventOk(sys: Sys, e: Event)
    requires SysOk(sys) && e.DecideEvent? && Enabled(sys, e)
    ensures SysOk(Apply(sys, e))
  {
    SweptLink(sys, e.order, e.now);
    DecideOk(Sweep(sys.store, e.order, e.now), e.node, e.id, e.accept, e.reason, e.now, sys.history);
  }

  lemma CancelEventOk(sys: Sys, e: Event)
    requires SysOk(sys) && e.CancelEvent? && Enabled(sys, e)
    ensures SysOk(Apply(sys, e))
  {
    SweptLink(sys, e.order, e.now);
    CancelOk(Sweep(sys.store, e.order, e.now), e.node, e.id, e.reason, e.now, sys.history);
  }

  lemma WakeOk(sys: Sys, e: Event)
    requires SysOk(sys) && e.Wake? && Enabled(sys, e)
    ensures SysOk(Apply(sys, e))
  {
    UnblockOk(sys, e.poller, Running);
  }

  lemma AbortOk(sys: Sys, e: Event)
    requires SysOk(sys) && e.PollAbort? && Enabled(sys, e)
    ensures SysOk(Apply(sys, e))
  {
    UnblockOk(sys, e.poller, Leaving);
  }

  lemma StatusStopOk(sys: Sys, e: Event)
    requires SysOk(sys) && e.StatusStop? && Enabled(sys, e)
    ensures SysOk(Apply(sys, e))
  {
    StatusGoneOk(sys.store, sys.clock, sys.history, e.poller);
  }

  lemma OtherSweepOk(sys: Sys, e: Event)
    requires SysOk(sys) && e.OtherSweep? && Enabled(sys, e)
    ensures SysOk(Apply(sys, e))
  {
    SweptLink(sys, e.order, e.now);
  }

  predicate Sweeps(e: Event) {
    e.Create? || e.PollPass? || e.StatusPass? || e.DecideEvent? || e.CancelEvent? || e.OtherSweep?
  }

  lemma SweepingStepOk(sys: Sys, e: Event)
    requires SysOk(sys) && Enabled(sys, e) && Sweeps(e)
    ensures SysOk(Apply(sys, e))
  {
    match e
    case Create(_, _, _, _, _, _) => CreateOk(sys, e);
    case PollPass(_, _, _, _, _) => PollPassOk(sys, e);
    case StatusPass(_, _, _) => StatusPassOk(sys, e);
    case DecideEvent(_, _, _, _, _, _) => DecideEventOk(sys, e);
    case CancelEvent(_, _, _, _, _) => CancelEventOk(sys, e);
    case OtherSweep(_, _) => OtherSweepOk(sys, e);
  }

  predicate AtNode(e: Event) {
    e.Ack? || e.NodeSave? || e.NodeForget?
  }

  lemma PollerStepOk(sys: Sys, e: Event)
    requires SysOk(sys) && Enabled(sys, e) && !AtNode(e) && !Sweeps(e)
    ensures SysOk(Apply(sys, e))
  {
    match e
    case PollStart(_, _, _, _) => PollStartOk(sys, e);
    case Wake(_) => WakeOk(sys, e);
    case PollTimeout(_) => TimeoutOk(sys, e);
    case PollAbort(_) => AbortOk(sys, e);
    case PollLeave(_) => PollLeaveOk(sys, e);
    case StatusStart(_, _, _, _) => StatusStartOk(sys, e);
    case StatusStop(_) => StatusStopOk(sys, e);
  }

  /** Every event keeps every invariant. */
  lemma StepOk(sys: Sys, e: Event)
    requires SysOk(sys) && Enabled(sys, e)
    ensures SysOk(Apply(sys, e))
  {
    if Sweeps(e) {
      SweepingStepOk(sys, e);
    } else if e.NodeSave? {
      SaveMail(sys.history, sys.store.acks, e.node, e.reply, e.merged);
    } else if e.NodeForget? {
      ForgetOk(sys, e);
    } else if e.Ack? {
      AckOk(sys, e);
    } else {
      PollerStepOk(sys, e);
    }
  }

  /** The invariants hold in every state of every run. */
  lemma {:induction false} RunOk(trace: seq<Sys>, events: seq<Event>, i: nat)
    requires IsRun(trace, events) && i < |trace|
    ensures SysOk(trace[i])
  {
    if i == 0 {
      var config: Config, clock: Time :| config.ttl > 0 && config.lease > 0 && trace[0] == Init(config, clock);
      InitOk(config, clock);
    } else {
      RunOk(trace, events, i - 1);
      StepOk(trace[i - 1], events[i - 1]);
    }
  }
}
