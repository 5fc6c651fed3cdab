/**
 Runs of the connection protocol: the coordinator's store, the long polls blocked on it, the
 replies it wrote (each may be lost, repeated or reordered), and every node's durable inbox.
 An event is one critical section of a handler or one step of a node; `Apply` is its effect.
 The visiting order of a sweep, the batch of a poll and the merged inbox are carried by the
 event, so a run may resolve map iteration in any way.
 */
module Delivery {
  import opened Prelude
  import opened Topology
  import opened ConnectionStore
  import opened InboxMerge

  datatype Phase =
    | Running
    | Waiting(signal: nat, cursor: nat)
    | Leaving

  /** A handler instance of inbox/wait or of status/wait. */
  datatype Poller =
    | InboxPoll(node: string, after: nat, limit: nat, phase: Phase)
    | StatusPoll(node: string, request: string, known: Option<ConnectionState>, phase: Phase)

  function WithPhase(poller: Poller, phase: Phase): Poller {
    match poller
    case InboxPoll(node, after, limit, _) => InboxPoll(node, after, limit, phase)
    case StatusPoll(node, request, known, _) => StatusPoll(node, request, known, phase)
  }

  /** One offer of one record to its target. */
  datatype Offering = Offering(cursor: nat, id: string, at: Time)

  /**
   pollers   - handlers in progress
   log       - per target, the offers made to it, oldest first
   offers    - per request, the instants at which it was offered
   born      - every request ID ever issued, with its creation time
   promised  - per target, the cursors the server put into a reply or prepared for one
   sent      - per target, the inbox replies written to the network
   inboxes   - per node, connection-inbox.json
   owed      - per node, cursors it has saved and will acknowledge
   */
  datatype History = History(
    pollers: map<nat, Poller>,
    log: map<string, seq<Offering>>,
    offers: map<string, seq<Time>>,
    born: map<string, Time>,
    promised: map<string, set<nat>>,
    sent: map<string, set<Inbox>>,
    inboxes: map<string, Inbox>,
    owed: map<string, set<nat>>)

  datatype Sys = Sys(store: Store, clock: Time, history: History)

  datatype Event =
    | Create(source: string, input: CreateInput, nodes: map<string, Node>, id: string, order: seq<string>, now: Time)
    | PollStart(poller: nat, node: string, after: nat, maxEvents: int)
    | PollPass(poller: nat, order: seq<string>, batch: seq<Connection>, persisted: bool, now: Time)
    | Wake(poller: nat)
    | PollTimeout(poller: nat)
    | PollAbort(poller: nat)
    | PollLeave(poller: nat)
    | StatusStart(poller: nat, node: string, request: string, known: Option<ConnectionState>)
    | StatusPass(poller: nat, order: seq<string>, now: Time)
    | StatusStop(poller: nat)
    | Ack(node: string, cursor: nat)
    | DecideEvent(node: string, id: string, accept: bool, reason: string, order: seq<string>, now: Time)
    | CancelEvent(node: string, id: string, reason: string, order: seq<string>, now: Time)
    | OtherSweep(order: seq<string>, now: Time)
    | NodeSave(node: string, reply: Inbox, merged: Inbox)
    | NodeForget(node: string, id: string)

  function InboxOf(h: History, node: string): Inbox {
    if node in h.inboxes then h.inboxes[node] else EMPTY_INBOX
  }

  ghost function Init(config: Config, clock: Time): Sys {
    Sys(Empty(config), clock, History(map[], map[], map[], map[], map[], map[], map[], map[]))
  }

  // ----- guards -----

  ghost predicate SweepEnabled(sys: Sys, order: seq<string>, now: Time) {
    sys.clock <= now && IsOrder(order, sys.store.connections.Keys)
  }

  predicate Is(pollers: map<nat, Poller>, p: nat, inbox: bool) {
    p in pollers && pollers[p].InboxPoll? == inbox
  }

  ghost predicate CursorReturned(h: History, node: string, cursor: nat) {
    exists reply :: reply in LookupSet(h.sent, node) && reply.cursor == cursor
  }

  ghost predicate Enabled(sys: Sys, e: Event) {
    var h := sys.history;
    match e
    case Create(source, input, nodes, id, order, now) =>
      SweepEnabled(sys, order, now) && WellFormedInput(input) && NUL !in source && id != "" && id !in h.born
    case PollStart(p, node, after, _) =>
      p !in h.pollers && node !in sys.store.inboxWaiters && (after == 0 || CursorReturned(h, node, after))
    case PollPass(p, order, batch, _, now) =>
      SweepEnabled(sys, order, now) && Is(h.pollers, p, true) && h.pollers[p].phase == Running &&
      IsBatch(Sweep(sys.store, order, now), h.pollers[p].node, h.pollers[p].after, h.pollers[p].limit, batch)
    case Wake(p) =>
      p in h.pollers && h.pollers[p].phase.Waiting? && h.pollers[p].phase.signal in sys.store.closed
    case PollTimeout(p) => Is(h.pollers, p, true) && h.pollers[p].phase.Waiting?
    case PollAbort(p) => Is(h.pollers, p, true) && h.pollers[p].phase.Waiting?
    case PollLeave(p) => Is(h.pollers, p, true) && h.pollers[p].phase == Leaving
    case StatusStart(p, _, _, _) => p !in h.pollers
    case StatusPass(p, order, now) =>
      SweepEnabled(sys, order, now) && Is(h.pollers, p, false) && h.pollers[p].phase == Running
    case StatusStop(p) => Is(h.pollers, p, false)
    case Ack(node, cursor) => cursor in LookupSet(h.owed, node)
    case DecideEvent(_, _, _, _, order, now) => SweepEnabled(sys, order, now)
    case CancelEvent(_, _, _, order, now) => SweepEnabled(sys, order, now)
    case OtherSweep(order, now) => SweepEnabled(sys, order, now)
    case NodeSave(node, reply, merged) =>
      reply in LookupSet(h.sent, node) && IsMerge(InboxOf(h, node), reply, merged)
    case NodeForget(_, _) => true
  }

  // ----- effects -----

  function Offerings(events: seq<Connection>, now: Time): (r: seq<Offering>)
    ensures |r| == |events|
    ensures forall i :: 0 <= i < |events| ==> r[i] == Offering(events[i].cursor, events[i].id, now)
  {
    seq(|events|, i requires 0 <= i < |events| => Offering(events[i].cursor, events[i].id, now))
  }

  ghost function CursorsOf(events: seq<Connection>): set<nat> {
    set i | 0 <= i < |events| :: events[i].cursor
  }

  ghost function RecordOffers(offers: map<string, seq<Time>>, events: seq<Connection>, now: Time): map<string, seq<Time>> {
    map id | id in offers.Keys + (set i | 0 <= i < |events| :: events[i].id) ::
      LookupSeq(offers, id) + if HasId(events, id) then [now] else []
  }

  /** A pass of inbox/wait that found events. */
  ghost function Deliver(h: History, p: nat, batch: seq<Connection>, persisted: bool, now: Time, lease: int): History
    requires p in h.pollers && batch != []
  {
    var node := h.pollers[p].node;
    var reply := Inbox(batch[|batch| - 1].cursor, OfferedCopies(batch, now, lease));
    h.(pollers := h.pollers[p := WithPhase(h.pollers[p], Leaving)],
       log := h.log[node := LookupSeq(h.log, node) + Offerings(batch, now)],
       offers := RecordOffers(h.offers, batch, now),
       promised := h.promised[node := LookupSet(h.promised, node) + CursorsOf(batch)],
       sent := if persisted then h.sent[node := LookupSet(h.sent, node) + {reply}] else h.sent)
  }

  ghost function SetPhase(h: History, p: nat, phase: Phase): History
    requires p in h.pollers
  {
    h.(pollers := h.pollers[p := WithPhase(h.pollers[p], phase)])
  }

  /** A pass that found nothing: the counter is promised to the node as the answer to a timeout. */
  ghost function Hold(h: History, p: nat, node: string, phase: Phase, cursor: nat): History
    requires p in h.pollers
  {
    h.(pollers := h.pollers[p := WithPhase(h.pollers[p], phase)],
       promised := h.promised[node := LookupSet(h.promised, node) + {cursor}])
  }

  predicate StatusBlocks(s: Store, p: Poller)
    requires p.StatusPoll?
  {
    p.request in s.connections &&
    (s.connections[p.request].source == p.node || s.connections[p.request].target == p.node) &&
    Some(s.connections[p.request].state) == p.known && !Terminal(s.connections[p.request].state)
  }

  ghost function Apply(sys: Sys, e: Event): Sys
    requires Enabled(sys, e)
  {
    var h := sys.history;
    match e
    case Create(source, input, nodes, id, order, now) =>
      var swept := Sweep(sys.store, order, now);
      if CreateStatus(swept, source, input, nodes) == 201 then
        Sys(Insert(swept, source, input, id, now), now, h.(born := h.born[id := now]))
      else Sys(swept, now, h)
    case PollStart(p, node, after, maxEvents) =>
      Sys(RegisterWaiter(sys.store, node), sys.clock,
          h.(pollers := h.pollers[p := InboxPoll(node, after, InboxLimit(maxEvents), Running)]))
    case PollPass(p, order, batch, persisted, now) =>
      var swept := Sweep(sys.store, order, now);
      var node := h.pollers[p].node;
      if batch != [] then
        Sys(Offer(swept, batch, now), now, Deliver(h, p, batch, persisted, now, swept.config.lease))
      else
        var cursor := Lookup(swept.cursors, node);
        Sys(SubscribeTarget(swept, node).0, now,
            Hold(h, p, node, if persisted then Waiting(SubscribeTarget(swept, node).1, cursor) else Leaving, cursor))
    case Wake(p) => sys.(history := SetPhase(h, p, Running))
    case PollTimeout(p) =>
      var node, reply := h.pollers[p].node, Inbox(h.pollers[p].phase.cursor, []);
      sys.(history := SetPhase(h, p, Leaving).(sent := h.sent[node := LookupSet(h.sent, node) + {reply}]))
    case PollAbort(p) => sys.(history := SetPhase(h, p, Leaving))
    case PollLeave(p) =>
      Sys(ReleaseWaiter(sys.store, h.pollers[p].node), sys.clock, h.(pollers := h.pollers - {p}))
    case StatusStart(p, node, request, known) =>
      sys.(history := h.(pollers := h.pollers[p := StatusPoll(node, request, known, Running)]))
    case StatusPass(p, order, now) =>
      var swept := Sweep(sys.store, order, now);
      if StatusBlocks(swept, h.pollers[p]) then
        var subscribed := SubscribeRequest(swept, h.pollers[p].request);
        Sys(subscribed.0, now, SetPhase(h, p, Waiting(subscribed.1, 0)))
      else Sys(swept, now, h.(pollers := h.pollers - {p}))
    case StatusStop(p) => sys.(history := h.(pollers := h.pollers - {p}))
    case Ack(node, cursor) => sys.(store := Acknowledge(sys.store, node, cursor))
    case DecideEvent(node, id, accept, reason, order, now) =>
      Sys(Decide(Sweep(sys.store, order, now), node, id, accept, reason, now), now, h)
    case CancelEvent(node, id, reason, order, now) =>
      Sys(Cancel(Sweep(sys.store, order, now), node, id, reason, now), now, h)
    case OtherSweep(order, now) => Sys(Sweep(sys.store, order, now), now, h)
    case NodeSave(node, reply, merged) =>
      sys.(history := h.(
        inboxes := h.inboxes[node := merged],
        owed := if reply.events == [] then h.owed else h.owed[node := LookupSet(h.owed, node) + {reply.cursor}]))
    case NodeForget(node, id) =>
      var inbox := InboxOf(h, node);
      sys.(history := h.(inboxes := h.inboxes[node := inbox.(events := Without(inbox.events, id))]))
  }

  /** A run visits trace[0], trace[1], ... by applying enabled events. */
  ghost predicate IsRun(trace: seq<Sys>, events: seq<Event>) {
    && |trace| == |events| + 1
    && (exists config: Config, clock: Time :: config.ttl > 0 && config.lease > 0 && trace[0] == Init(config, clock))
    && (forall i :: 0 <= i < |events| ==> Enabled(trace[i], events[i]) && trace[i + 1] == Apply(trace[i], events[i]))
  }
}
