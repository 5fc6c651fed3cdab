/**
 Runs of the reverse handoff at one relay: the waiters of dialReverseService and tryReverse, the
 takers of the reverse branch of handle, and the targets' offer workers that dial the relay.
 A connection number stands for one dialed connection: the worker at one end, the taker at the
 other. Every step is one channel operation, one critical section, or one read or write.
 */
module Handoff {
  import opened Prelude
  import opened ConnectionStore
  import opened ReverseBroker

  /** A waiter is Returning from its select (or a failed request) until its cancel closes `done`. */
  datatype WaiterPhase = Requesting | Selecting | Returning | DoneClosed | Withdrawn

  datatype TakerPhase =
    | Blocked(handle: nat)
    | Delivered(handle: nat)
    | OkWritten(handle: nat)
    | WriteFailed(handle: nat)
    | Released(handle: nat)
    | Refused

  datatype WorkerPhase = AwaitingOk | GotOk | DialFailed | AcceptSent | RejectSent | Crashed

  /** serveAutomaticConnectionOffer for one event, from its dial on. */
  datatype Attempt = Attempt(node: string, event: Connection, phase: WorkerPhase)

  datatype Handover = Handover(handle: nat, conn: nat)

  /** offering - automaticConnectionOffers of every node; handovers - what waiters received, in order. */
  datatype Sys = Sys(
    table: Table,
    waiters: seq<WaiterPhase>,
    takers: map<nat, TakerPhase>,
    attempts: map<nat, Attempt>,
    offering: set<(string, string)>,
    handovers: seq<Handover>)

  datatype Step =
    | StartWaiting(token: string, target: string, service: string)
    | RequestCreated(handle: nat)
    | RequestFailed(handle: nat)
    | TimerFires(handle: nat)
    | CloseStep(handle: nat)
    | WithdrawStep(handle: nat)
    | Dial(conn: nat, node: string, event: Connection)
    | TakeStep(conn: nat)
    | HandOver(conn: nat)
    | WriteOk(conn: nat)
    | WriteFails(conn: nat)
    | Release(conn: nat)
    | ReadOk(conn: nat)
    | ReadFails(conn: nat)
    | SendAccept(conn: nat)
    | SendReject(conn: nat)
    | NodeCrash(node: string)

  const INITIAL := Sys(EMPTY_TABLE, [], map[], map[], {}, [])

  predicate WaiterIn(s: Sys, h: nat, phase: WaiterPhase) {
    h < |s.waiters| && s.waiters[h] == phase
  }

  predicate WorkerIn(s: Sys, c: nat, phase: WorkerPhase) {
    c in s.attempts && s.attempts[c].phase == phase
  }

  predicate Active(phase: WorkerPhase) {
    phase == AwaitingOk || phase == GotOk || phase == DialFailed
  }

  predicate Enabled(s: Sys, e: Step) {
    match e
    case StartWaiting(token, _, _) => token != ""
    case RequestCreated(h) => WaiterIn(s, h, Requesting)
    case RequestFailed(h) => WaiterIn(s, h, Requesting)
    case TimerFires(h) => WaiterIn(s, h, Selecting)
    case CloseStep(h) => WaiterIn(s, h, Returning)
    case WithdrawStep(h) => WaiterIn(s, h, DoneClosed)
    case Dial(c, node, event) =>
      c !in s.attempts && event.target == node && event.returnRelay != "" && (node, event.id) !in s.offering
    case TakeStep(c) => c in s.attempts && c !in s.takers
    case HandOver(c) => c in s.takers && s.takers[c].Blocked? && WaiterIn(s, s.takers[c].handle, Selecting)
    case WriteOk(c) => c in s.takers && s.takers[c].Delivered?
    case WriteFails(c) => c in s.takers && s.takers[c].Delivered?
    case Release(c) => c in s.takers && s.takers[c].Blocked? && s.takers[c].handle in s.table.closed
    case ReadOk(c) => WorkerIn(s, c, AwaitingOk) && c in s.takers && s.takers[c].OkWritten?
    case ReadFails(c) => WorkerIn(s, c, AwaitingOk)
    case SendAccept(c) => WorkerIn(s, c, GotOk)
    case SendReject(c) => WorkerIn(s, c, DialFailed)
    case NodeCrash(_) => true
  }

  function Move(s: Sys, h: nat, phase: WaiterPhase): Sys
    requires h < |s.waiters|
  {
    s.(waiters := s.waiters[h := phase])
  }

  function Advance(s: Sys, c: nat, phase: WorkerPhase): Sys
    requires c in s.attempts
  {
    var a := s.attempts[c];
    s.(attempts := s.attempts[c := a.(phase := phase)],
       offering := if Active(phase) then s.offering else s.offering - {(a.node, a.event.id)})
  }

  function Stand(s: Sys, c: nat, phase: TakerPhase): Sys {
    s.(takers := s.takers[c := phase])
  }

  /** The relay's answer to the signed handshake of an attempt. */
  function Taken(s: Sys, c: nat): TakerPhase
    requires c in s.attempts
  {
    var a := s.attempts[c];
    var found := Matching(s.table, a.event.key, a.node, a.event.service);
    if a.event.key == "" || found.None? then Refused else Blocked(found.value)
  }

  function Apply(s: Sys, e: Step): Sys
    requires Enabled(s, e)
  {
    match e
    case StartWaiting(token, target, service) =>
      s.(table := Expect(s.table, token, target, service), waiters := s.waiters + [Requesting])
    case RequestCreated(h) => Move(s, h, Selecting)
    case RequestFailed(h) => Move(s, h, Returning)
    case TimerFires(h) => Move(s, h, Returning)
    case CloseStep(h) => Move(s, h, DoneClosed).(table := CloseDone(s.table, h))
    case WithdrawStep(h) => Move(s, h, Withdrawn).(table := Withdraw(s.table, h))
    case Dial(c, node, event) =>
      s.(attempts := s.attempts[c := Attempt(node, event, AwaitingOk)], offering := s.offering + {(node, event.id)})
    case TakeStep(c) =>
      var a := s.attempts[c];
      Stand(s, c, Taken(s, c)).(table := Take(s.table, a.event.key, a.node, a.event.service))
    case HandOver(c) =>
      var h := s.takers[c].handle;
      Stand(Move(s, h, Returning), c, Delivered(h)).(handovers := s.handovers + [Handover(h, c)])
    case WriteOk(c) => Stand(s, c, OkWritten(s.takers[c].handle))
    case WriteFails(c) => Stand(s, c, WriteFailed(s.takers[c].handle))
    case Release(c) => Stand(s, c, Released(s.takers[c].handle))
    case ReadOk(c) => Advance(s, c, GotOk)
    case ReadFails(c) => Advance(s, c, DialFailed)
    case SendAccept(c) => Advance(s, c, AcceptSent)
    case SendReject(c) => Advance(s, c, RejectSent)
    case NodeCrash(node) =>
      s.(attempts := map c | c in s.attempts ::
           if s.attempts[c].node == node && Active(s.attempts[c].phase) then s.attempts[c].(phase := Crashed)
           else s.attempts[c],
         offering := set p | p in s.offering && p.0 != node)
  }

  ghost predicate IsRun(trace: seq<Sys>, steps: seq<Step>) {
    && |trace| == |steps| + 1
    && trace[0] == INITIAL
    && (forall i :: 0 <= i < |steps| ==> Enabled(trace[i], steps[i]) && trace[i + 1] == Apply(trace[i], steps[i]))
  }

  // ----- what every step keeps -----

  predicate Holds(p: TakerPhase, h: nat) {
    !p.Refused? && p.handle == h
  }

  predicate Got(p: TakerPhase) {
    p.Delivered? || p.OkWritten? || p.WriteFailed?
  }

  predicate Waits(phase: WaiterPhase) {
    phase == Requesting || phase == Selecting
  }

  ghost predicate TableSound(s: Sys) {
    && TableOk(s.table)
    && "" !in s.table.waiting
    && |s.waiters| == |s.table.expectations|
  }

  /** `done` is closed exactly when the waiter's cancel has run its first half. */
  ghost predicate ClosedSound(s: Sys) {
    forall h: nat :: h < |s.waiters| ==> (h in s.table.closed <==> s.waiters[h] == DoneClosed || s.waiters[h] == Withdrawn)
  }

  /** No taker holds a handle that is still registered. */
  ghost predicate RegisteredUntaken(s: Sys) {
    forall token, c :: token in s.table.waiting && c in s.takers ==> !Holds(s.takers[c], s.table.waiting[token])
  }

  /** Only waiters that have not withdrawn are registered. */
  ghost predicate RegisteredOpen(s: Sys) {
    forall token :: token in s.table.waiting && s.table.waiting[token] < |s.waiters| ==> s.waiters[s.table.waiting[token]] != Withdrawn
  }

  /** A taker holds an expectation of its own token, node and service. */
  ghost predicate TakersBound(s: Sys) {
    && (forall c :: c in s.takers ==> c in s.attempts)
    && (forall c :: c in s.takers && !s.takers[c].Refused? ==>
          s.takers[c].handle < |s.table.expectations| &&
          s.table.expectations[s.takers[c].handle] ==
            Expectation(s.attempts[c].event.key, s.attempts[c].node, s.attempts[c].event.service))
  }

  ghost predicate TakersDistinct(s: Sys) {
    forall c, d :: c in s.takers && d in s.takers && !s.takers[c].Refused? && Holds(s.takers[d], s.takers[c].handle) ==> c == d
  }

  /** Once a taker has delivered, its waiter has left its select. */
  ghost predicate DeliveredLeft(s: Sys) {
    forall c :: c in s.takers && Got(s.takers[c]) ==>
      s.takers[c].handle < |s.waiters| && !Waits(s.waiters[s.takers[c].handle])
  }

  ghost predicate HandoversSound(s: Sys) {
    && (forall i :: 0 <= i < |s.handovers| ==>
          s.handovers[i].conn in s.takers && Got(s.takers[s.handovers[i].conn]) &&
          s.takers[s.handovers[i].conn].handle == s.handovers[i].handle)
    && (forall i, j :: 0 <= i < j < |s.handovers| ==> s.handovers[i].conn != s.handovers[j].conn)
  }

  ghost predicate DeliveriesRecorded(s: Sys) {
    forall c :: c in s.takers && Got(s.takers[c]) ==> Handover(s.takers[c].handle, c) in s.handovers
  }

  /** A worker that read OK is at the other end of a delivery. */
  ghost predicate OkMeansDelivered(s: Sys) {
    forall c :: c in s.attempts && (s.attempts[c].phase == GotOk || s.attempts[c].phase == AcceptSent) ==>
      c in s.takers && s.takers[c].OkWritten?
  }

  predicate Busy(a: Attempt, node: string, id: string) {
    Active(a.phase) && a.node == node && a.event.id == id
  }

  /** At most one worker per node and request, recorded in the node's offer table. */
  ghost predicate WorkersDistinct(s: Sys) {
    && (forall c :: c in s.attempts && Active(s.attempts[c].phase) ==> (s.attempts[c].node, s.attempts[c].event.id) in s.offering)
    && (forall c, d :: c in s.attempts && d in s.attempts && Active(s.attempts[c].phase) &&
          Busy(s.attempts[d], s.attempts[c].node, s.attempts[c].event.id)
          ==> c == d)
  }

  ghost predicate IsServed(s: Sys, node: string, id: string) {
    exists c :: c in s.attempts && Busy(s.attempts[c], node, id)
  }

  /** The offer table holds nothing but requests with a worker. */
  ghost predicate OffersServed(s: Sys) {
    forall p :: p in s.offering ==> IsServed(s, p.0, p.1)
  }

  ghost predicate OwnEvents(s: Sys) {
    forall c :: c in s.attempts ==> s.attempts[c].event.target == s.attempts[c].node
  }

  ghost predicate IsTaken(s: Sys, h: nat) {
    exists c :: c in s.takers && Holds(s.takers[c], h)
  }

  ghost predicate IsReplaced(s: Sys, h: nat) {
    exists j: nat :: h < j < |s.table.expectations| && s.table.expectations[j].token == s.table.expectations[h].token
  }

  predicate IsRegistered(s: Sys, h: nat)
    requires h < |s.table.expectations|
  {
    s.table.expectations[h].token in s.table.waiting && s.table.waiting[s.table.expectations[h].token] == h
  }

  /** A waiter that has not withdrawn can still be found, unless it was taken or replaced. */
  ghost predicate PendingSound(s: Sys) {
    && |s.waiters| == |s.table.expectations|
    && (forall h: nat :: h < |s.waiters| && s.waiters[h] != Withdrawn ==> IsRegistered(s, h) || IsTaken(s, h) || IsReplaced(s, h))
  }

  ghost predicate SysOk(s: Sys) {
    && TableSound(s) && ClosedSound(s) && RegisteredUntaken(s)
    && TakersBound(s) && TakersDistinct(s) && DeliveredLeft(s)
    && HandoversSound(s) && DeliveriesRecorded(s)
    && OkMeansDelivered(s) && WorkersDistinct(s) && OffersServed(s) && OwnEvents(s)
    && RegisteredOpen(s) && PendingSound(s)
  }

  lemma TableStep(s: Sys, e: Step)
    requires TableSound(s) && Enabled(s, e)
    ensures TableSound(Apply(s, e))
  {
  }

  lemma ClosedStep(s: Sys, e: Step)
    requires TableSound(s) && ClosedSound(s) && Enabled(s, e)
    ensures ClosedSound(Apply(s, e))
  {
  }

  lemma UntakenStep(s: Sys, e: Step)
    requires TableSound(s) && TakersBound(s) && RegisteredUntaken(s) && Enabled(s, e)
    ensures RegisteredUntaken(Apply(s, e))
  {
  }

  lemma OpenStep(s: Sys, e: Step)
    requires TableSound(s) && RegisteredOpen(s) && Enabled(s, e)
    ensures RegisteredOpen(Apply(s, e))
  {
  }

  lemma TakeBound(s: Sys, c: nat)
    requires TableSound(s) && TakersBound(s) && Enabled(s, TakeStep(c))
    ensures TakersBound(Apply(s, TakeStep(c)))
  {
  }

  /** Bound takers stay bound while attempts keep their event and expectations are only added. */
  lemma StillBound(s: Sys, n: Sys)
    requires TakersBound(s) && n.takers.Keys == s.takers.Keys && s.attempts.Keys <= n.attempts.Keys
    requires forall c :: c in s.takers && !n.takers[c].Refused? ==>
               !s.takers[c].Refused? && n.takers[c].handle == s.takers[c].handle
    requires forall c :: c in s.takers && c in s.attempts ==>
               n.attempts[c].event == s.attempts[c].event && n.attempts[c].node == s.attempts[c].node
    requires |s.table.expectations| <= |n.table.expectations|
    requires forall h :: 0 <= h < |s.table.expectations| ==> n.table.expectations[h] == s.table.expectations[h]
    ensures TakersBound(n)
  {
  }

  lemma BoundStep(s: Sys, e: Step)
    requires TableSound(s) && TakersBound(s) && Enabled(s, e)
    ensures TakersBound(Apply(s, e))
  {
    if e.TakeStep? {
      TakeBound(s, e.conn);
    } else {
      StillBound(s, Apply(s, e));
    }
  }

  lemma DistinctStep(s: Sys, e: Step)
    requires RegisteredUntaken(s) && TakersDistinct(s) && Enabled(s, e)
    ensures TakersDistinct(Apply(s, e))
  {
  }

  lemma LeftStep(s: Sys, e: Step)
    requires TakersDistinct(s) && DeliveredLeft(s) && Enabled(s, e)
    ensures DeliveredLeft(Apply(s, e))
  {
  }

  lemma HandoversStep(s: Sys, e: Step)
    requires HandoversSound(s) && Enabled(s, e)
    ensures HandoversSound(Apply(s, e))
  {
  }

  lemma RecordedStep(s: Sys, e: Step)
    requires DeliveriesRecorded(s) && Enabled(s, e)
    ensures DeliveriesRecorded(Apply(s, e))
  {
  }

  lemma OkStep(s: Sys, e: Step)
    requires OkMeansDelivered(s) && Enabled(s, e)
    ensures OkMeansDelivered(Apply(s, e))
  {
  }

  lemma DialWorkers(s: Sys, c: nat, node: string, event: Connection)
    requires WorkersDistinct(s) && Enabled(s, Dial(c, node, event))
    ensures WorkersDistinct(Apply(s, Dial(c, node, event)))
  {
  }

  lemma AdvanceWorkers(s: Sys, c: nat, phase: WorkerPhase)
    requires WorkersDistinct(s) && c in s.attempts && Active(s.attempts[c].phase)
    ensures WorkersDistinct(Advance(s, c, phase))
  {
    var n, a := Advance(s, c, phase), s.attempts[c];
    forall d | d in n.attempts && Active(n.attempts[d].phase)
      ensures (n.attempts[d].node, n.attempts[d].event.id) in n.offering
    {
      assert d != c && !Active(phase) ==> !Busy(s.attempts[d], a.node, a.event.id);
    }
  }

  lemma CrashWorkers(s: Sys, node: string)
    requires WorkersDistinct(s)
    ensures WorkersDistinct(Apply(s, NodeCrash(node)))
  {
  }

  lemma WorkersStep(s: Sys, e: Step)
    requires WorkersDistinct(s) && Enabled(s, e)
    ensures WorkersDistinct(Apply(s, e))
  {
    match e
    case Dial(c, node, event) => DialWorkers(s, c, node, event);
    case ReadOk(c) => AdvanceWorkers(s, c, GotOk);
    case ReadFails(c) => AdvanceWorkers(s, c, DialFailed);
    case SendAccept(c) => AdvanceWorkers(s, c, AcceptSent);
    case SendReject(c) => AdvanceWorkers(s, c, RejectSent);
    case NodeCrash(node) => CrashWorkers(s, node);
    case _ => assert Apply(s, e).attempts == s.attempts;
  }

  /** What a step other than a crash leaves in the offer table still has its worker. */
  lemma StillServed(s: Sys, e: Step, node: string, id: string)
    requires WorkersDistinct(s) && IsServed(s, node, id) && Enabled(s, e) && (node, id) in Apply(s, e).offering
    ensures IsServed(Apply(s, e), node, id)
  {
    var c :| c in s.attempts && Busy(s.attempts[c], node, id);
    assert c in Apply(s, e).attempts && Busy(Apply(s, e).attempts[c], node, id);
  }

  lemma OffersStep(s: Sys, e: Step)
    requires WorkersDistinct(s) && OffersServed(s) && Enabled(s, e)
    ensures OffersServed(Apply(s, e))
  {
    var n := Apply(s, e);
    forall p | p in n.offering ensures IsServed(n, p.0, p.1) {
      if p in s.offering {
        StillServed(s, e, p.0, p.1);
      } else {
        assert Busy(n.attempts[e.conn], p.0, p.1);
      }
    }
  }

  lemma OwnStep(s: Sys, e: Step)
    requires OwnEvents(s) && Enabled(s, e)
    ensures OwnEvents(Apply(s, e))
  {
  }

  lemma PendingStep(s: Sys, e: Step)
    requires TableSound(s) && TakersBound(s) && PendingSound(s) && Enabled(s, e)
    ensures PendingSound(Apply(s, e))
  {
    var n := Apply(s, e);
    forall h: nat | h < |n.waiters| && n.waiters[h] != Withdrawn
      ensures IsRegistered(n, h) || IsTaken(n, h) || IsReplaced(n, h)
    {
      if h < |s.waiters| {
        PendingOne(s, e, h);
      }
    }
  }

  lemma PendingOne(s: Sys, e: Step, h: nat)
    requires TableSound(s) && Enabled(s, e) && h < |s.waiters| && Apply(s, e).waiters[h] != Withdrawn
    requires s.waiters[h] != Withdrawn ==> IsRegistered(s, h) || IsTaken(s, h) || IsReplaced(s, h)
    requires |s.waiters| == |s.table.expectations|
    ensures IsRegistered(Apply(s, e), h) || IsTaken(Apply(s, e), h) || IsReplaced(Apply(s, e), h)
  {
    var n := Apply(s, e);
    assert s.waiters[h] != Withdrawn;
    if IsReplaced(s, h) {
      var j: nat :| h < j < |s.table.expectations| && s.table.expectations[j].token == s.table.expectations[h].token;
      assert n.table.expectations[j] == s.table.expectations[j];
    } else if IsTaken(s, h) {
      var c :| c in s.takers && Holds(s.takers[c], h);
      assert Holds(n.takers[c], h);
    } else if e.StartWaiting? && e.token == s.table.expectations[h].token {
      assert n.table.expectations[|s.table.expectations|].token == e.token;
    } else if e.TakeStep? && !IsRegistered(n, h) {
      assert Holds(n.takers[e.conn], h);
    }
  }

  lemma StepOk(s: Sys, e: Step)
    requires SysOk(s) && Enabled(s, e)
    ensures SysOk(Apply(s, e))
  {
    TableStep(s, e);
    ClosedStep(s, e);
    UntakenStep(s, e);
    BoundStep(s, e);
    DistinctStep(s, e);
    LeftStep(s, e);
    HandoversStep(s, e);
    RecordedStep(s, e);
    OkStep(s, e);
    WorkersStep(s, e);
    OffersStep(s, e);
    OwnStep(s, e);
    OpenStep(s, e);
    PendingStep(s, e);
  }
}
