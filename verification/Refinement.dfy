/**
 The handlers are the events of the runs. What a method of ConnectionServer, NodeInbox,
 NodeTableServer or EnrollmentServer ensures about one call is taken as a hypothesis; the
 conclusion is an enabled event of Delivery, Discovery or EnrollmentRuns with the same effect, and
 what the call answered is what that event records. So the theorems about runs are about the calls.
 */
module Refinement {
  import opened Prelude
  import opened Topology
  import opened ConnectionStore
  import opened StoreInvariants
  import opened InboxMerge
  import D = Delivery
  import opened ConnectionServer
  import NodeTable
  import NodeTableServer
  import Discovery
  import Enrollment
  import EnrollmentRuns
  import EnrollmentServer

  /** A create that got a token is a Create event, and answers with the request that event leaves stored. */
  lemma CreateIsEvent(sys: D.Sys, order: seq<string>, source: string, input: CreateInput, nodes: map<string, Node>, id: string,
                      now: Time, persisted: bool, n: Store, status: int, answer: Option<Connection>)
    requires D.SweepEnabled(sys, order, now) && WellFormedInput(input) && NUL !in source && id != "" && id !in sys.history.born
    requires Created(Sweep(sys.store, order, now), source, input, nodes, Some(id), now, persisted, n, status, answer)
    ensures var e := D.Create(source, input, nodes, id, order, now); D.Enabled(sys, e) && n == D.Apply(sys, e).store
    ensures answer.Some? ==> answer.value in n.connections.Values
  {
    assert status == 201 ==> n.connections[id] == NewConnection(Sweep(sys.store, order, now), source, input, id, now);
  }

  /** A create without one, or whose sweep could not be written, leaves what any other sweep leaves. */
  lemma FailedCreateIsSweep(sys: D.Sys, order: seq<string>, source: string, input: CreateInput, nodes: map<string, Node>,
                            now: Time, persisted: bool, n: Store, status: int, answer: Option<Connection>)
    requires D.SweepEnabled(sys, order, now)
    requires Created(Sweep(sys.store, order, now), source, input, nodes, None, now, persisted, n, status, answer)
    ensures D.Enabled(sys, D.OtherSweep(order, now)) && n == D.Apply(sys, D.OtherSweep(order, now)).store
  {
  }

  /** What a pass answered or blocked on is what the history says of its poll. */
  ghost predicate Tells(h: D.History, p: nat, node: string, outcome: PassOutcome) {
    p in h.pollers &&
    match outcome
    case Deliver(cursor, events) => h.pollers[p].phase == D.Leaving && Inbox(cursor, events) in LookupSet(h.sent, node)
    case Block(signal, cursor) => h.pollers[p].phase == D.Waiting(signal, cursor)
    case Fault => h.pollers[p].phase == D.Leaving
  }

  /** A pass of inbox/wait is a PollPass event: a delivered answer is among the replies sent, a block is a blocked poll. */
  lemma PassIsEvent(sys: D.Sys, p: nat, order: seq<string>, node: string, after: nat, limit: nat, now: Time, persisted: bool,
                    dirty: bool, batch: seq<Connection>, n: Store, outcome: PassOutcome, e: D.Event)
    requires D.SweepEnabled(sys, order, now)
    requires p in sys.history.pollers && sys.history.pollers[p] == D.InboxPoll(node, after, limit, D.Running)
    requires Passed(Sweep(sys.store, order, now), node, after, limit, now, persisted, dirty, batch, n, outcome)
    requires e == D.PollPass(p, order, batch, persisted || (batch == [] && !dirty), now)
    ensures D.Enabled(sys, e)
    ensures n == D.Apply(sys, e).store && Tells(D.Apply(sys, e).history, p, node, outcome)
  {
    var m, h := Sweep(sys.store, order, now), sys.history;
    if batch != [] {
      DeliverTells(h, p, node, batch, persisted, now, m.config.lease, outcome);
    }
  }

  lemma DeliverTells(h: D.History, p: nat, node: string, batch: seq<Connection>, persisted: bool, now: Time, lease: int,
                     outcome: PassOutcome)
    requires p in h.pollers && h.pollers[p].InboxPoll? && h.pollers[p].node == node && batch != []
    requires outcome == if persisted then Deliver(batch[|batch| - 1].cursor, OfferedCopies(batch, now, lease)) else Fault
    ensures Tells(D.Deliver(h, p, batch, persisted, now, lease), p, node, outcome)
  {
  }

  /** What a pass of status/wait blocks on is its poll's channel. */
  lemma StatusBlockIsEvent(sys: D.Sys, p: nat, order: seq<string>, node: string, id: string, known: Option<ConnectionState>,
                           now: Time, failing: bool, n: Store, outcome: StatusOutcome, e: D.Event)
    requires D.SweepEnabled(sys, order, now) && e == D.StatusPass(p, order, now)
    requires p in sys.history.pollers && sys.history.pollers[p] == D.StatusPoll(node, id, known, D.Running)
    requires StatusPassed(Sweep(sys.store, order, now), node, id, known, true, failing, n, outcome) && outcome.BlockOn?
    ensures D.Enabled(sys, e) && n == D.Apply(sys, e).store
    ensures p in D.Apply(sys, e).history.pollers
    ensures D.Apply(sys, e).history.pollers[p].phase == D.Waiting(outcome.signal, 0)
  {
  }

  /** A pass that answers leaves its poll, and answers a stored record the node may see. */
  lemma StatusAnswerIsEvent(sys: D.Sys, p: nat, order: seq<string>, node: string, id: string, known: Option<ConnectionState>,
                            now: Time, failing: bool, n: Store, outcome: StatusOutcome, e: D.Event)
    requires D.SweepEnabled(sys, order, now) && e == D.StatusPass(p, order, now)
    requires p in sys.history.pollers && sys.history.pollers[p] == D.StatusPoll(node, id, known, D.Running)
    requires !D.StatusBlocks(Sweep(sys.store, order, now), D.StatusPoll(node, id, known, D.Running))
    requires StatusPassed(Sweep(sys.store, order, now), node, id, known, true, failing, n, outcome)
    ensures D.Enabled(sys, e) && n == D.Apply(sys, e).store && p !in D.Apply(sys, e).history.pollers
    ensures outcome.Answered? && (outcome.connection.Some? ==> Visible(n, node, id) && outcome.connection.value == n.connections[id])
  {
  }

  ghost predicate Visible(n: Store, node: string, id: string) {
    id in n.connections && (n.connections[id].source == node || n.connections[id].target == node)
  }

  /** A pass that has subscribed and then cannot write its sweep answers 500: the event, and then the end of its poll. */
  lemma StatusFailureIsTwoEvents(sys: D.Sys, p: nat, order: seq<string>, node: string, id: string, known: Option<ConnectionState>,
                                 now: Time, n: Store, outcome: StatusOutcome, e: D.Event)
    requires D.SweepEnabled(sys, order, now) && e == D.StatusPass(p, order, now)
    requires p in sys.history.pollers && sys.history.pollers[p] == D.StatusPoll(node, id, known, D.Running)
    requires D.StatusBlocks(Sweep(sys.store, order, now), D.StatusPoll(node, id, known, D.Running))
    requires StatusPassed(Sweep(sys.store, order, now), node, id, known, true, true, n, outcome)
    ensures outcome == Answered(500, None) && D.Enabled(sys, e) && D.Enabled(D.Apply(sys, e), D.StatusStop(p))
    ensures D.Apply(D.Apply(sys, e), D.StatusStop(p)).store == n
  {
  }

  /** A plain status request is a sweep. */
  lemma PlainStatusIsSweep(sys: D.Sys, order: seq<string>, node: string, id: string, known: Option<ConnectionState>,
                           now: Time, failing: bool, n: Store, outcome: StatusOutcome)
    requires D.SweepEnabled(sys, order, now)
    requires StatusPassed(Sweep(sys.store, order, now), node, id, known, false, failing, n, outcome)
    ensures D.Enabled(sys, D.OtherSweep(order, now)) && n == D.Apply(sys, D.OtherSweep(order, now)).store && outcome.Answered?
  {
  }

  /** A decision is a DecideEvent. */
  lemma DecideIsEvent(sys: D.Sys, order: seq<string>, node: string, id: string, accept: bool, reason: string, now: Time, n: Store)
    requires D.SweepEnabled(sys, order, now)
    requires n == Decide(Sweep(sys.store, order, now), node, id, accept, reason, now)
    ensures var e := D.DecideEvent(node, id, accept, reason, order, now); D.Enabled(sys, e) && n == D.Apply(sys, e).store
  {
  }

  /** What it answers is the stored record of a request to this node, in the decided state, exactly with a 200. */
  lemma DecideAnswer(m: Store, node: string, id: string, accept: bool, reason: string, now: Time, persisted: bool, n: Store,
                     status: int, answer: Option<Connection>)
    requires IdsOk(m.connections) && n == Decide(m, node, id, accept, reason, now)
    requires Concluded(DecideVerdict(m, node, id, if accept then Accepted else Rejected), n, id, persisted, status, answer)
    ensures answer.Some? <==> status == 200
    ensures answer.Some? ==> Holds(n, id, answer.value, if accept then Accepted else Rejected) && answer.value.target == node
  {
  }

  ghost predicate Holds(n: Store, id: string, c: Connection, state: ConnectionState) {
    id in n.connections && n.connections[id] == c && c.state == state
  }

  /** A cancellation is a CancelEvent. */
  lemma CancelIsEvent(sys: D.Sys, order: seq<string>, node: string, id: string, reason: string, now: Time, n: Store)
    requires D.SweepEnabled(sys, order, now) && n == Cancel(Sweep(sys.store, order, now), node, id, reason, now)
    ensures var e := D.CancelEvent(node, id, reason, order, now); D.Enabled(sys, e) && n == D.Apply(sys, e).store
  {
  }

  /** What it answers is the stored record of a request of this node, canceled, exactly with a 200. */
  lemma CancelAnswer(m: Store, node: string, id: string, reason: string, now: Time, persisted: bool, n: Store,
                     status: int, answer: Option<Connection>)
    requires IdsOk(m.connections) && n == Cancel(m, node, id, reason, now)
    requires Concluded(CancelVerdict(m, node, id), n, id, persisted, status, answer)
    ensures answer.Some? <==> status == 200
    ensures answer.Some? ==> Holds(n, id, answer.value, Canceled) && answer.value.source == node
  {
  }

  /** A poll begins exactly when no other poll of its node is active, and ends as a PollLeave event. */
  lemma PollsAreEvents(sys: D.Sys, p: nat, q: nat, node: string, after: nat, maxEvents: int)
    requires p !in sys.history.pollers && (after == 0 || D.CursorReturned(sys.history, node, after))
    requires D.Is(sys.history.pollers, q, true) && sys.history.pollers[q].phase == D.Leaving
    ensures D.Enabled(sys, D.PollStart(p, node, after, maxEvents)) <==> node !in sys.store.inboxWaiters
    ensures node !in sys.store.inboxWaiters ==>
              D.Apply(sys, D.PollStart(p, node, after, maxEvents)).store == RegisterWaiter(sys.store, node)
    ensures D.Enabled(sys, D.PollLeave(q)) &&
            D.Apply(sys, D.PollLeave(q)).store == ReleaseWaiter(sys.store, sys.history.pollers[q].node)
  {
  }

  /** waitInbox after its reply: a NodeSave event, and for a batch the acknowledgement it enables. */
  lemma ReceiveIsEvent(sys: D.Sys, node: string, reply: Inbox, n: Inbox, ack: Option<nat>)
    requires reply in LookupSet(sys.history.sent, node) && IsMerge(D.InboxOf(sys.history, node), reply, n)
    requires ack == if reply.events != [] then Some(reply.cursor) else None
    ensures var e := D.NodeSave(node, reply, n);
            D.Enabled(sys, e) && D.InboxOf(D.Apply(sys, e).history, node) == n &&
            (ack.Some? ==>
               D.Enabled(D.Apply(sys, e), D.Ack(node, ack.value)) &&
               D.Apply(D.Apply(sys, e), D.Ack(node, ack.value)).store == Acknowledge(sys.store, node, ack.value))
  {
  }

  /** Removing a request from the inbox is a NodeForget event. */
  lemma RemoveIsEvent(sys: D.Sys, node: string, id: string, n: Inbox)
    requires n == D.InboxOf(sys.history, node).(events := Without(D.InboxOf(sys.history, node).events, id))
    ensures D.Enabled(sys, D.NodeForget(node, id)) && D.InboxOf(D.Apply(sys, D.NodeForget(node, id)).history, node) == n
  {
  }

  // ----- discovery -----

  /** An accepted heartbeat is a Heartbeat event of the node that was stored. */
  lemma HeartbeatIsEvent(s: Discovery.Sys, stored: Node, order: seq<string>, now: Time, n: NodeTable.Table)
    requires IsOrder(order, s.table.nodes.Keys + {stored.id})
    requires n == NodeTable.Sweep(NodeTable.Register(s.table, stored, now), order, now)
    ensures Discovery.Enabled(s, Discovery.Heartbeat(stored, order, now))
    ensures Discovery.Apply(s, Discovery.Heartbeat(stored, order, now)).table == n
  {
    assert NodeTable.Register(s.table, stored, now).nodes.Keys == s.table.nodes.Keys + {stored.id};
  }

  function AsReply(outcome: NodeTableServer.DiscoverOutcome): Discovery.Reply
    requires !outcome.NotRegistered?
  {
    match outcome
    case Unchanged(revision) => Discovery.Reply(revision, false, [])
    case Changed(revision, nodes) => Discovery.Reply(revision, true, nodes)
  }

  /** A served discovery request is a Serve event whose worker gets exactly that answer. */
  lemma DiscoverIsEvent(s: Discovery.Sys, id: string, expected: nat, after: nat, order: seq<string>, now: Time,
                        n: NodeTable.Table, outcome: NodeTableServer.DiscoverOutcome)
    requires IsOrder(order, s.table.nodes.Keys) && n == NodeTable.Sweep(s.table, order, now)
    requires Discovery.WorkerOf(s, id).fetch == Discovery.Asking(expected, after)
    requires outcome.NotRegistered? <==> id !in n.nodes
    requires outcome.Unchanged? ==> after == n.revision == outcome.revision
    requires outcome.Changed? ==>
               after != n.revision == outcome.revision && NodeTable.IsListing(outcome.nodes, NodeTable.PeerView(n.nodes, id))
    requires !outcome.NotRegistered?
    ensures var e := Discovery.Serve(id, order, now, AsReply(outcome).nodes);
            Discovery.Enabled(s, e) && Discovery.Apply(s, e).table == n &&
            Discovery.WorkerOf(Discovery.Apply(s, e), id).fetch == Discovery.Answered(expected, AsReply(outcome))
  {
  }

  // ----- enrollment -----

  /** A request for enrollment is a RequestEvent, if its ID is new; a created one is pending with what was drawn for it. */
  lemma RequestIsEvent(sys: EnrollmentRuns.Sys, order: seq<string>, victims: set<string>, input: Enrollment.Input,
                       ids: seq<Option<string>>, codes: seq<Option<string>>, id: Option<string>, code: Option<string>,
                       now: Time, persisted: bool, n: Enrollment.State, status: int)
    requires Enrollment.SweepEnabled(sys.state, order, victims, now) && Some("") !in ids && Some("") !in codes
    requires EnrollmentServer.Requested(Enrollment.Sweep(sys.state, order, victims, now), input, ids, codes, id, code, now,
                                        persisted, n, status)
    requires id.Some? ==> id.value !in sys.issued
    ensures var e := EnrollmentRuns.RequestEvent(input, id, code, order, victims, now);
            EnrollmentRuns.Enabled(sys, e) && n == EnrollmentRuns.Apply(sys, e).state
    ensures status == 201 ==>
              id.Some? && id in ids && code in codes && id.value in n.pending &&
              Some(n.pending[id.value].code) == code && n.history[id.value].status == 100
  {
  }

  /** Approvals and rejections are their events, and a 200 tells that the handshake now is what was asked. */
  lemma DecisionsAreEvents(sys: EnrollmentRuns.Sys, order: seq<string>, victims: set<string>, code: string,
                           found: Option<string>, replace: bool, reason: string, now: Time)
    requires Enrollment.SweepEnabled(sys.state, order, victims, now)
    requires Enrollment.IsFound(Enrollment.Sweep(sys.state, order, victims, now).pending, code, found)
    ensures var m := Enrollment.Sweep(sys.state, order, victims, now);
            var approve := EnrollmentRuns.ApproveEvent(code, found, replace, order, victims, now);
            var reject := EnrollmentRuns.RejectEvent(code, found, reason, order, victims, now);
            EnrollmentRuns.Enabled(sys, approve) && EnrollmentRuns.Enabled(sys, reject) &&
            (Enrollment.ApproveStatus(m, found, replace) == 200 ==>
               found.Some? && found.value in EnrollmentRuns.Apply(sys, approve).state.pending &&
               EnrollmentRuns.Apply(sys, approve).state.pending[found.value].approved) &&
            (Enrollment.RejectStatus(m, found) == 200 ==>
               found.Some? && found.value in EnrollmentRuns.Apply(sys, reject).state.pending &&
               EnrollmentRuns.Apply(sys, reject).state.pending[found.value].rejected)
  {
  }

  /** The enrollment side of a heartbeat is a HeartbeatEvent. */
  lemma EnrollmentHeartbeatIsEvent(sys: EnrollmentRuns.Sys, order: seq<string>, victims: set<string>, n: Node, now: Time,
                                   stored: Enrollment.State, after: Enrollment.State)
    requires n.id in sys.state.authorized && stored == Enrollment.Register(sys.state, n, now)
    ensures Enrollment.SweepEnabled(stored, order, victims, now) && after == Enrollment.Sweep(stored, order, victims, now) ==>
              var e := EnrollmentRuns.HeartbeatEvent(n, order, victims, now);
              EnrollmentRuns.Enabled(sys, e) && EnrollmentRuns.Apply(sys, e).state == after
  {
  }

  /** A revocation is a RevokeEvent, after which neither the authorization nor a handshake of the node is left. */
  lemma RevokeIsEvent(sys: EnrollmentRuns.Sys, gone: string, now: Time, revoked: Enrollment.State)
    requires gone in sys.state.authorized && revoked == Enrollment.Revoke(sys.state, gone, now)
    ensures var e := EnrollmentRuns.RevokeEvent(gone, now);
            EnrollmentRuns.Enabled(sys, e) && EnrollmentRuns.Apply(sys, e).state == revoked
    ensures gone !in revoked.authorized && gone !in revoked.table.nodes
    ensures forall id :: id in revoked.pending ==> revoked.pending[id].node.id != gone
  {
  }
}
