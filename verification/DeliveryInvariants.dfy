/**
 What links the store to the rest of a run: cursors already handed out, blocked long polls,
 the offers of each request, and the nodes' inboxes and acknowledgements.
 */
module DeliveryInvariants {
  import opened Prelude
  import opened Topology
  import opened ConnectionStore
  import opened StoreInvariants
  import opened SweepEffect
  import opened InboxMerge
  import opened Delivery

  type Pollers = map<nat, Poller>
  type CursorSets = map<string, set<nat>>
  type Signals = map<string, nat>

  // ----- cursors handed out -----

  predicate Promised(promised: CursorSets, node: string, cursor: nat) {
    cursor in LookupSet(promised, node)
  }

  /** Every cursor handed out is at most the counter and below every queued record of that target. */
  ghost predicate PromisedOk(r: Records, counters: map<string, nat>, promised: CursorSets) {
    && (forall n, c: nat :: Promised(promised, n, c) ==> c <= Lookup(counters, n))
    && (forall id, c: nat :: id in r && r[id].state == Queued && Promised(promised, r[id].target, c) ==> c < r[id].cursor)
  }

  // ----- long polls -----

  predicate InboxBlocked(pollers: Pollers, p: nat) {
    Is(pollers, p, true) && pollers[p].phase.Waiting?
  }

  predicate StatusBlocked(pollers: Pollers, p: nat) {
    Is(pollers, p, false) && pollers[p].phase.Waiting?
  }

  ghost predicate NoneQueued(r: Records, node: string) {
    forall id :: id in r && r[id].target == node ==> r[id].state != Queued
  }

  /** A poll blocked on an open channel: the channel is registered and nothing is queued for its node. */
  ghost predicate InboxWakeOk(r: Records, signals: Signals, closed: set<nat>, next: nat, pollers: Pollers) {
    forall p :: InboxBlocked(pollers, p) ==>
      pollers[p].phase.signal < next &&
      (pollers[p].phase.signal !in closed ==>
         pollers[p].node in signals && signals[pollers[p].node] == pollers[p].phase.signal &&
         NoneQueued(r, pollers[p].node))
  }

  ghost predicate StillKnown(r: Records, poller: Poller)
    requires poller.StatusPoll?
  {
    poller.request in r && Some(r[poller.request].state) == poller.known && !Terminal(r[poller.request].state)
  }

  ghost predicate StatusWakeOk(r: Records, signals: Signals, closed: set<nat>, next: nat, pollers: Pollers) {
    forall p :: StatusBlocked(pollers, p) ==>
      pollers[p].phase.signal < next &&
      (pollers[p].phase.signal !in closed ==>
         pollers[p].request in signals && signals[pollers[p].request] == pollers[p].phase.signal &&
         StillKnown(r, pollers[p]))
  }

  /** One inbox poll per node, and the waiter set is exactly the nodes with a poll. */
  ghost predicate WaitersOk(waiters: set<string>, pollers: Pollers) {
    && (forall p :: Is(pollers, p, true) ==> pollers[p].node in waiters && pollers[p].limit > 0)
    && (forall p, q :: Is(pollers, p, true) && Is(pollers, q, true) && p != q ==> pollers[p].node != pollers[q].node)
    && (forall n :: n in waiters ==> exists p :: Is(pollers, p, true) && pollers[p].node == n)
  }

  /** A poll asks for what follows a cursor it was given. */
  ghost predicate AfterOk(promised: CursorSets, pollers: Pollers) {
    && (forall p :: Is(pollers, p, true) ==> pollers[p].after == 0 || Promised(promised, pollers[p].node, pollers[p].after))
    && (forall p :: InboxBlocked(pollers, p) ==> Promised(promised, pollers[p].node, pollers[p].phase.cursor))
  }

  // ----- the delivery log -----

  ghost predicate Increasing(log: seq<Offering>) {
    forall i, j :: 0 <= i < j < |log| ==> log[i].cursor < log[j].cursor
  }

  ghost predicate LogOk(log: map<string, seq<Offering>>, promised: CursorSets) {
    && (forall n :: n in log ==> Increasing(log[n]))
    && (forall n, i :: n in log && 0 <= i < |log[n]| ==> Promised(promised, n, log[n][i].cursor))
  }

  // ----- the offers of a request -----

  ghost predicate Spaced(times: seq<Time>, lease: int) {
    forall i :: 0 < i < |times| ==> times[i] > times[i - 1] + lease
  }

  ghost predicate BornOk(r: Records, born: map<string, Time>) {
    forall id :: id in r ==> id in born && born[id] == r[id].createdAt
  }

  ghost predicate OffersOk(config: Config, clock: Time, born: map<string, Time>, offers: map<string, seq<Time>>) {
    forall id :: id in offers ==>
      id in born && Spaced(offers[id], config.lease) && |offers[id]| > 0 &&
      forall i :: 0 <= i < |offers[id]| ==> born[id] <= offers[id][i] <= born[id] + config.ttl && offers[id][i] <= clock
  }

  /** The last offer of a record that could be offered again lies more than a lease before its requeue. */
  ghost predicate LastOfferOk(r: Records, config: Config, offers: map<string, seq<Time>>) {
    forall id :: id in r && id in offers && |offers[id]| > 0 ==>
      var last := offers[id][|offers[id]| - 1];
      && (r[id].state == Offered ==> last == r[id].updatedAt)
      && (r[id].state == Queued ==> last + config.lease < r[id].updatedAt)
  }

  // ----- nodes -----

  ghost predicate Logged(log: map<string, seq<Offering>>, node: string, cursor: nat, id: string) {
    exists i :: 0 <= i < |LookupSeq(log, node)| && LookupSeq(log, node)[i].cursor == cursor && LookupSeq(log, node)[i].id == id
  }

  ghost predicate EventsLogged(log: map<string, seq<Offering>>, node: string, inbox: Inbox) {
    forall i :: 0 <= i < |inbox.events| ==>
      Logged(log, node, inbox.events[i].cursor, inbox.events[i].id) && inbox.events[i].cursor <= inbox.cursor
  }

  ghost predicate SentOk(log: map<string, seq<Offering>>, promised: CursorSets, sent: map<string, set<Inbox>>) {
    forall n, reply :: reply in LookupSet(sent, n) ==> Promised(promised, n, reply.cursor) && EventsLogged(log, n, reply) && StrictlyIncreasing(reply.events)
  }

  ghost predicate InboxesOk(log: map<string, seq<Offering>>, promised: CursorSets, inboxes: map<string, Inbox>) {
    forall n :: n in inboxes ==>
      (inboxes[n].cursor == 0 || Promised(promised, n, inboxes[n].cursor)) &&
      EventsLogged(log, n, inboxes[n]) && StrictlyIncreasing(inboxes[n].events) && DistinctIds(inboxes[n].events)
  }

  predicate Owes(owed: CursorSets, node: string, cursor: nat) {
    cursor in LookupSet(owed, node)
  }

  ghost predicate OwedOk(inboxes: map<string, Inbox>, owed: CursorSets) {
    forall n, c: nat :: Owes(owed, n, c) ==> n in inboxes && c <= inboxes[n].cursor
  }

  ghost predicate AcksOk(acks: map<string, nat>, inboxes: map<string, Inbox>) {
    forall n :: n in acks ==> n in inboxes && acks[n] <= inboxes[n].cursor
  }

  // ----- all of it -----

  /** The parts that a critical section of the server can disturb. */
  ghost predicate LinkOk(s: Store, clock: Time, h: History) {
    && PromisedOk(s.connections, s.cursors, h.promised)
    && InboxWakeOk(s.connections, s.targetSignals, s.closed, s.nextSignal, h.pollers)
    && StatusWakeOk(s.connections, s.requestSignals, s.closed, s.nextSignal, h.pollers)
    && BornOk(s.connections, h.born)
    && LastOfferOk(s.connections, s.config, h.offers)
    && OffersOk(s.config, clock, h.born, h.offers)
  }

  /** The parts about polls, replies and nodes. */
  ghost predicate MailOk(s: Store, h: History) {
    && WaitersOk(s.inboxWaiters, h.pollers)
    && AfterOk(h.promised, h.pollers)
    && LogOk(h.log, h.promised)
    && SentOk(h.log, h.promised, h.sent)
    && InboxesOk(h.log, h.promised, h.inboxes)
    && OwedOk(h.inboxes, h.owed)
    && AcksOk(s.acks, h.inboxes)
  }

  ghost predicate SysOk(sys: Sys) {
    && StoreOk(sys.store, sys.clock)
    && LinkOk(sys.store, sys.clock, sys.history)
    && MailOk(sys.store, sys.history)
  }

  // ----- the sweep -----

  lemma SweepOnePromised(s: Store, id: string, now: Time, promised: CursorSets)
    requires PromisedOk(s.connections, s.cursors, promised)
    ensures PromisedOk(SweepOne(s, id, now).connections, SweepOne(s, id, now).cursors, promised)
  {
  }

  lemma SweepOneInboxWake(s: Store, id: string, now: Time, pollers: Pollers)
    requires InboxWakeOk(s.connections, s.targetSignals, s.closed, s.nextSignal, pollers)
    ensures var n := SweepOne(s, id, now);
            InboxWakeOk(n.connections, n.targetSignals, n.closed, n.nextSignal, pollers)
  {
    if id in s.connections {
      var n := SweepOne(s, id, now);
      forall p | InboxBlocked(pollers, p) && pollers[p].phase.signal !in n.closed
        ensures pollers[p].node in n.targetSignals && n.targetSignals[pollers[p].node] == pollers[p].phase.signal
        ensures NoneQueued(n.connections, pollers[p].node)
      {
        assert !(Wakes(s.connections[id], now) && s.connections[id].target == pollers[p].node);
      }
    }
  }

  lemma SweepOneStatusWake(s: Store, id: string, now: Time, pollers: Pollers)
    requires StatusWakeOk(s.connections, s.requestSignals, s.closed, s.nextSignal, pollers)
    ensures var n := SweepOne(s, id, now);
            StatusWakeOk(n.connections, n.requestSignals, n.closed, n.nextSignal, pollers)
  {
    if id in s.connections {
      var n := SweepOne(s, id, now);
      forall p | StatusBlocked(pollers, p) && pollers[p].phase.signal !in n.closed
        ensures pollers[p].request in n.requestSignals && n.requestSignals[pollers[p].request] == pollers[p].phase.signal
        ensures StillKnown(n.connections, pollers[p])
      {
        assert pollers[p].request == id ==> !Touches(s.connections[id], now);
      }
    }
  }

  lemma SweepOneOffers(s: Store, id: string, now: Time, born: map<string, Time>, offers: map<string, seq<Time>>)
    requires RecordsOk(s.connections, s.config, now)
    requires BornOk(s.connections, born) && LastOfferOk(s.connections, s.config, offers)
    ensures BornOk(SweepOne(s, id, now).connections, born)
    ensures LastOfferOk(SweepOne(s, id, now).connections, s.config, offers)
  {
    if id in s.connections {
      assert RecordOk(s.connections[id], s.config, now);
    }
  }

  lemma SweepOneLink(s: Store, id: string, now: Time, h: History)
    requires StoreOk(s, now) && LinkOk(s, now, h)
    ensures LinkOk(SweepOne(s, id, now), now, h)
  {
    SweepOnePromised(s, id, now, h.promised);
    SweepOneInboxWake(s, id, now, h.pollers);
    SweepOneStatusWake(s, id, now, h.pollers);
    SweepOneOffers(s, id, now, h.born, h.offers);
  }

  lemma {:induction false} SweepLink(s: Store, order: seq<string>, now: Time, h: History)
    requires StoreOk(s, now) && LinkOk(s, now, h)
    ensures StoreOk(Sweep(s, order, now), now) && LinkOk(Sweep(s, order, now), now, h)
    ensures Sweep(s, order, now).acks == s.acks && Sweep(s, order, now).inboxWaiters == s.inboxWaiters
    ensures Sweep(s, order, now).config == s.config
  {
    if order != [] {
      SweepLink(s, order[..|order| - 1], now, h);
      SweepOneOk(Sweep(s, order[..|order| - 1], now), order[|order| - 1], now);
      SweepOneLink(Sweep(s, order[..|order| - 1], now), order[|order| - 1], now, h);
    }
  }

  lemma LaterLink(s: Store, clock: Time, now: Time, h: History)
    requires StoreOk(s, clock) && LinkOk(s, clock, h) && clock <= now
    ensures StoreOk(s, now) && LinkOk(s, now, h)
  {
  }

  /** The sweep that opens every handler, together with the passing of time. */
  lemma SweptLink(sys: Sys, order: seq<string>, now: Time)
    requires SysOk(sys) && SweepEnabled(sys, order, now)
    ensures var m := Sweep(sys.store, order, now);
            StoreOk(m, now) && LinkOk(m, now, sys.history) && MailOk(m, sys.history) && Settled(m.connections, now)
  {
    LaterLink(sys.store, sys.clock, now, sys.history);
    SweepLink(sys.store, order, now, sys.history);
    SweepSettles(sys.store, order, now);
  }

  // ----- a new version of a record -----

  lemma RewriteLink(s: Store, c: Connection, wake: bool, now: Time, h: History)
    requires StoreOk(s, now) && LinkOk(s, now, h) && MayBecome(s, c, now)
    requires c.state != Queued && c.createdAt == s.connections[c.id].createdAt
    requires c.state == Offered ==> c.id !in h.offers || |h.offers[c.id]| == 0 || h.offers[c.id][|h.offers[c.id]| - 1] == c.updatedAt
    ensures LinkOk(Rewrite(s, c, wake), now, h)
  {
    RewritePromised(s, c, wake, h.promised);
    RewriteInboxWake(s, c, wake, h.pollers);
    RewriteStatusWake(s, c, wake, h.pollers);
    RewriteOffers(s, c, wake, h.born, h.offers);
  }

  lemma RewritePromised(s: Store, c: Connection, wake: bool, promised: CursorSets)
    requires PromisedOk(s.connections, s.cursors, promised) && c.state != Queued
    ensures PromisedOk(Rewrite(s, c, wake).connections, s.cursors, promised)
  {
  }

  lemma RewriteInboxWake(s: Store, c: Connection, wake: bool, pollers: Pollers)
    requires InboxWakeOk(s.connections, s.targetSignals, s.closed, s.nextSignal, pollers)
    requires c.state != Queued || wake
    ensures var n := Rewrite(s, c, wake);
            InboxWakeOk(n.connections, n.targetSignals, n.closed, n.nextSignal, pollers)
  {
    var n := Rewrite(s, c, wake);
    forall p | InboxBlocked(pollers, p) && pollers[p].phase.signal !in n.closed
      ensures pollers[p].node in n.targetSignals && n.targetSignals[pollers[p].node] == pollers[p].phase.signal
      ensures NoneQueued(n.connections, pollers[p].node)
    {
      assert !(wake && c.target == pollers[p].node);
    }
  }

  lemma RewriteStatusWake(s: Store, c: Connection, wake: bool, pollers: Pollers)
    requires StatusWakeOk(s.connections, s.requestSignals, s.closed, s.nextSignal, pollers)
    ensures var n := Rewrite(s, c, wake);
            StatusWakeOk(n.connections, n.requestSignals, n.closed, n.nextSignal, pollers)
  {
    var n := Rewrite(s, c, wake);
    forall p | StatusBlocked(pollers, p) && pollers[p].phase.signal !in n.closed
      ensures pollers[p].request in n.requestSignals && n.requestSignals[pollers[p].request] == pollers[p].phase.signal
      ensures StillKnown(n.connections, pollers[p])
    {
      assert pollers[p].request != c.id;
    }
  }

  lemma RewriteOffers(s: Store, c: Connection, wake: bool, born: map<string, Time>, offers: map<string, seq<Time>>)
    requires BornOk(s.connections, born) && LastOfferOk(s.connections, s.config, offers)
    requires c.id in s.connections && c.createdAt == s.connections[c.id].createdAt && c.state != Queued
    requires c.state == Offered ==> c.id !in offers || |offers[c.id]| == 0 || offers[c.id][|offers[c.id]| - 1] == c.updatedAt
    ensures BornOk(Rewrite(s, c, wake).connections, born)
    ensures LastOfferOk(Rewrite(s, c, wake).connections, s.config, offers)
  {
  }
}
