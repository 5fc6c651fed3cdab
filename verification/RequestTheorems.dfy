/** In every run: what a request carries from its creation to every reply and every inbox that names it. */
module RequestTheorems {
  import opened Prelude
  import opened Topology
  import opened ConnectionStore
  import opened StoreInvariants
  import opened InboxMerge
  import opened Delivery
  import opened DeliveryInvariants
  import opened DeliveryProofs
  import DeliveryTheorems

  /** What the caller of a create asked for. */
  predicate Carries(c: Connection, source: string, input: CreateInput) {
    c.source == source && c.key == input.key && c.target == input.target && c.service == input.service &&
    c.returnRelay == input.returnRelay
  }

  /** An event as a reply shows it: the record when it was offered. */
  ghost predicate Shown(r: Records, c: Connection) {
    c.id in r && r[c.id] == c && c.state == Offered && c.statusCode == 102
  }

  // ----- one step -----

  /** A reply is an old one, or lists records as they are stored after this step. */
  ghost predicate RepliesEvolve(sent: map<string, set<Inbox>>, more: map<string, set<Inbox>>, r: Records) {
    forall node, reply, k :: reply in LookupSet(more, node) && 0 <= k < |reply.events| ==>
      reply in LookupSet(sent, node) || Shown(r, reply.events[k])
  }

  /** An event in an inbox was there before, or comes from a reply to that node. */
  ghost predicate InboxesEvolve(h: History, n: History) {
    forall node, c :: c in InboxOf(n, node).events ==>
      c in InboxOf(h, node).events || exists reply :: reply in LookupSet(h.sent, node) && c in reply.events
  }

  lemma DeliverReplies(h: History, p: nat, batch: seq<Connection>, persisted: bool, now: Time, lease: int, r: Records, n: Records)
    requires p in h.pollers && batch != [] && RecordsOffered(r, n, batch, now, lease)
    requires forall i :: 0 <= i < |batch| ==> batch[i].id in r && r[batch[i].id] == batch[i]
    ensures RepliesEvolve(h.sent, Deliver(h, p, batch, persisted, now, lease).sent, n)
  {
    var events := OfferedCopies(batch, now, lease);
    forall k | 0 <= k < |events| ensures Shown(n, events[k]) {
      assert HasId(batch, batch[k].id);
    }
  }

  lemma PassReplies(sys: Sys, e: Event)
    requires IdsOk(sys.store.connections) && e.PollPass? && Enabled(sys, e)
    ensures RepliesEvolve(sys.history.sent, Apply(sys, e).history.sent, Apply(sys, e).store.connections)
  {
    if e.batch != [] {
      var m, h := Sweep(sys.store, e.order, e.now), sys.history;
      var p := h.pollers[e.poller];
      DeliveryTheorems.SweptIds(sys.store, e.order, e.now);
      BatchOfferable(m, p.node, p.after, p.limit, e.batch, e.now);
      OfferRecords(m, e.batch, e.now);
      DeliverReplies(h, e.poller, e.batch, e.persisted, e.now, m.config.lease, m.connections, Offer(m, e.batch, e.now).connections);
    }
  }

  lemma TimeoutReplies(sys: Sys, e: Event)
    requires e.PollTimeout? && Enabled(sys, e)
    ensures RepliesEvolve(sys.history.sent, Apply(sys, e).history.sent, Apply(sys, e).store.connections)
  {
    var node, reply := sys.history.pollers[e.poller].node, Inbox(sys.history.pollers[e.poller].phase.cursor, []);
    assert Apply(sys, e).history.sent == sys.history.sent[node := LookupSet(sys.history.sent, node) + {reply}];
  }

  predicate SameMail(h: History, n: History) {
    n.sent == h.sent && n.inboxes == h.inboxes
  }

  lemma CreateFrame(s: Sys, e: Event)
    requires e.Create? && Enabled(s, e)
    ensures SameMail(s.history, Apply(s, e).history)
  {
  }

  lemma StatusFrame(sys: Sys, e: Event)
    requires e.StatusPass? && Enabled(sys, e)
    ensures SameMail(sys.history, Apply(sys, e).history)
  {
    var m, h, p := Sweep(sys.store, e.order, e.now), sys.history, e.poller;
    if StatusBlocks(m, h.pollers[p]) {
      var subscribed := SubscribeRequest(m, h.pollers[p].request);
      assert Apply(sys, e) == Sys(subscribed.0, e.now, SetPhase(h, p, Waiting(subscribed.1, 0)));
    } else {
      assert Apply(sys, e) == Sys(m, e.now, h.(pollers := h.pollers - {p}));
    }
  }

  lemma SectionFrame(sys: Sys, e: Event)
    requires Sweeps(e) && !e.PollPass? && Enabled(sys, e)
    ensures SameMail(sys.history, Apply(sys, e).history)
  {
    if e.Create? {
      CreateFrame(sys, e);
    } else if e.StatusPass? {
      StatusFrame(sys, e);
    } else {
      assert Apply(sys, e).history == sys.history;
    }
  }

  lemma PollFrame(sys: Sys, e: Event)
    requires !Sweeps(e) && !AtNode(e) && Enabled(sys, e)
    ensures !e.PollTimeout? ==> Apply(sys, e).history.sent == sys.history.sent
    ensures Apply(sys, e).history.inboxes == sys.history.inboxes
  {
  }

  lemma NodeFrame(sys: Sys, e: Event)
    requires AtNode(e) && Enabled(sys, e)
    ensures Apply(sys, e).history.sent == sys.history.sent
  {
  }

  lemma StepReplies(sys: Sys, e: Event)
    requires IdsOk(sys.store.connections) && Enabled(sys, e)
    ensures RepliesEvolve(sys.history.sent, Apply(sys, e).history.sent, Apply(sys, e).store.connections)
  {
    if e.PollPass? {
      PassReplies(sys, e);
    } else if e.PollTimeout? {
      TimeoutReplies(sys, e);
    } else if AtNode(e) {
      NodeFrame(sys, e);
    } else if Sweeps(e) {
      SectionFrame(sys, e);
    } else {
      PollFrame(sys, e);
    }
  }

  lemma DeliverFrame(h: History, p: nat, batch: seq<Connection>, persisted: bool, now: Time, lease: int)
    requires p in h.pollers && batch != []
    ensures Deliver(h, p, batch, persisted, now, lease).inboxes == h.inboxes
  {
  }

  lemma PassFrame(sys: Sys, e: Event)
    requires e.PollPass? && Enabled(sys, e)
    ensures Apply(sys, e).history.inboxes == sys.history.inboxes
  {
    var m, h, p := Sweep(sys.store, e.order, e.now), sys.history, e.poller;
    if e.batch != [] {
      DeliverFrame(h, p, e.batch, e.persisted, e.now, m.config.lease);
      assert Apply(sys, e).history == Deliver(h, p, e.batch, e.persisted, e.now, m.config.lease);
    } else {
      var node, cursor := h.pollers[p].node, Lookup(m.cursors, h.pollers[p].node);
      var phase := if e.persisted then Waiting(SubscribeTarget(m, node).1, cursor) else Leaving;
      assert Apply(sys, e).history == Hold(h, p, node, phase, cursor);
    }
  }

  lemma SaveInboxes(h: History, n: History, node: string, reply: Inbox, merged: Inbox)
    requires reply in LookupSet(h.sent, node) && IsMerge(InboxOf(h, node), reply, merged)
    requires n.inboxes == h.inboxes[node := merged]
    ensures InboxesEvolve(h, n)
  {
    MergeKeeps(InboxOf(h, node), reply, merged);
  }

  lemma StepInboxes(sys: Sys, e: Event)
    requires Enabled(sys, e)
    ensures InboxesEvolve(sys.history, Apply(sys, e).history)
  {
    if e.NodeSave? {
      SaveInboxes(sys.history, Apply(sys, e).history, e.node, e.reply, e.merged);
    } else if e.NodeForget? {
      ForgetInboxes(sys, e);
    } else if e.PollPass? {
      PassFrame(sys, e);
    } else if Sweeps(e) {
      SectionFrame(sys, e);
    } else if !AtNode(e) {
      PollFrame(sys, e);
    }
  }

  lemma ForgetInboxes(sys: Sys, e: Event)
    requires e.NodeForget? && Enabled(sys, e)
    ensures InboxesEvolve(sys.history, Apply(sys, e).history)
  {
  }

  // ----- a whole run -----

  /** Every event shown or saved so far names an issued request. */
  ghost predicate OnlyBorn(h: History) {
    && (forall node, reply, k :: reply in LookupSet(h.sent, node) && 0 <= k < |reply.events| ==> reply.events[k].id in h.born)
    && (forall node, c :: c in InboxOf(h, node).events ==> c.id in h.born)
  }

  /** The record of a request, every event of every reply and of every inbox that names it. */
  ghost predicate AllCarry(s: Sys, id: string, source: string, input: CreateInput) {
    && (id in s.store.connections ==> Carries(s.store.connections[id], source, input))
    && (forall node, reply, k :: reply in LookupSet(s.history.sent, node) && 0 <= k < |reply.events| && reply.events[k].id == id ==>
          Carries(reply.events[k], source, input))
    && (forall node, c :: c in InboxOf(s.history, node).events && c.id == id ==> Carries(c, source, input))
  }

  ghost predicate Step(s: Sys, n: Sys) {
    && DeliveryTheorems.Evolves(s, n)
    && RepliesEvolve(s.history.sent, n.history.sent, n.store.connections)
    && InboxesEvolve(s.history, n.history)
    && BornOk(n.store.connections, n.history.born)
  }

  lemma RunStep(trace: seq<Sys>, events: seq<Event>, i: nat)
    requires IsRun(trace, events) && i < |events|
    ensures Step(trace[i], trace[i + 1])
  {
    RunOk(trace, events, i);
    RunOk(trace, events, i + 1);
    assert Enabled(trace[i], events[i]);
    DeliveryTheorems.StepEvolves(trace[i], events[i]);
    StepReplies(trace[i], events[i]);
    StepInboxes(trace[i], events[i]);
  }

  lemma BornStep(s: Sys, n: Sys)
    requires Step(s, n) && OnlyBorn(s.history)
    ensures OnlyBorn(n.history)
  {
    forall node, c | c in InboxOf(n.history, node).events ensures c.id in n.history.born {
      if c !in InboxOf(s.history, node).events {
        var reply :| reply in LookupSet(s.history.sent, node) && c in reply.events;
        var k :| 0 <= k < |reply.events| && reply.events[k] == c;
      }
    }
  }

  lemma CarryStep(s: Sys, n: Sys, id: string, source: string, input: CreateInput)
    requires Step(s, n) && AllCarry(s, id, source, input) && id in s.history.born
    ensures AllCarry(n, id, source, input)
  {
    forall node, c | c in InboxOf(n.history, node).events && c.id == id ensures Carries(c, source, input) {
      if c !in InboxOf(s.history, node).events {
        var reply :| reply in LookupSet(s.history.sent, node) && c in reply.events;
        var k :| 0 <= k < |reply.events| && reply.events[k] == c;
      }
    }
  }

  ghost predicate EachStep(trace: seq<Sys>) {
    forall i, j :: 0 <= i < |trace| && 0 <= j < |trace| && j == i + 1 ==> Step(trace[i], trace[j])
  }

  lemma RunSteps(trace: seq<Sys>, events: seq<Event>)
    requires IsRun(trace, events)
    ensures EachStep(trace)
  {
    forall i, j | 0 <= i < |trace| && 0 <= j < |trace| && j == i + 1 ensures Step(trace[i], trace[j]) {
      RunStep(trace, events, i);
    }
  }

  lemma {:induction false} OnlyBornAlong(trace: seq<Sys>, k: nat)
    requires EachStep(trace) && k < |trace| && OnlyBorn(trace[0].history)
    ensures OnlyBorn(trace[k].history)
  {
    if k > 0 {
      OnlyBornAlong(trace, k - 1);
      BornStep(trace[k - 1], trace[k]);
    }
  }

  lemma {:induction false} CarryAlong(trace: seq<Sys>, i: nat, j: nat, id: string, source: string, input: CreateInput)
    requires EachStep(trace) && i <= j < |trace|
    requires AllCarry(trace[i], id, source, input) && id in trace[i].history.born
    ensures AllCarry(trace[j], id, source, input) && id in trace[j].history.born
  {
    if i < j {
      CarryAlong(trace, i, j - 1, id, source, input);
      CarryStep(trace[j - 1], trace[j], id, source, input);
    }
  }

  /** A create that leaves a record under its fresh ID has stored what was asked for, and nothing has named that ID before. */
  lemma CreateBegins(s: Sys, e: Event)
    requires e.Create? && Enabled(s, e) && OnlyBorn(s.history) && BornOk(s.store.connections, s.history.born)
    requires e.id in Apply(s, e).store.connections
    ensures AllCarry(Apply(s, e), e.id, e.source, e.input) && e.id in Apply(s, e).history.born
  {
    var m := Sweep(s.store, e.order, e.now);
    DeliveryTheorems.SweepEvolves(s.store, e.order, e.now);
    assert e.id !in m.connections;
    DeliveryTheorems.CreateApplied(s, e, m);
    NewCarries(m, e.source, e.input, e.id, e.now);
    CreateFrame(s, e);
    NamesNobody(s, Apply(s, e), e.id, e.source, e.input);
  }

  lemma NewCarries(m: Store, source: string, input: CreateInput, id: string, now: Time)
    ensures id in Insert(m, source, input, id, now).connections
    ensures Carries(Insert(m, source, input, id, now).connections[id], source, input)
  {
  }

  lemma NamesNobody(s: Sys, n: Sys, id: string, source: string, input: CreateInput)
    requires OnlyBorn(s.history) && id !in s.history.born
    requires n.history.sent == s.history.sent && n.history.inboxes == s.history.inboxes
    requires id in n.store.connections && Carries(n.store.connections[id], source, input)
    ensures AllCarry(n, id, source, input)
  {
    assert forall node :: InboxOf(n.history, node) == InboxOf(s.history, node);
  }

  /**
   After a create that stored a request, the record under its ID, every event of every reply and
   every event of every inbox that names that ID carry exactly the source, key, target, service and
   return relay of that create.
   */
  lemma RequestCarriesItsCreate(trace: seq<Sys>, events: seq<Event>, i: nat, j: nat)
    requires IsRun(trace, events) && i < j < |trace| && events[i].Create? && events[i].id in trace[i + 1].store.connections
    ensures AllCarry(trace[j], events[i].id, events[i].source, events[i].input)
  {
    RunOk(trace, events, i);
    RunSteps(trace, events);
    OnlyBornAlong(trace, i);
    assert Enabled(trace[i], events[i]);
    CreateBegins(trace[i], events[i]);
    CarryAlong(trace, i + 1, j, events[i].id, events[i].source, events[i].input);
  }
}
