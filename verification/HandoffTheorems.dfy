/** What holds in every state of every run of the reverse handoff. */
module HandoffTheorems {
  import opened Prelude
  import opened ConnectionStore
  import opened ReverseBroker
  import opened Handoff

  lemma {:induction false} RunOk(trace: seq<Sys>, steps: seq<Step>, k: nat)
    requires IsRun(trace, steps) && k < |trace|
    ensures SysOk(trace[k])
  {
    if k > 0 {
      RunOk(trace, steps, k - 1);
      StepOk(trace[k - 1], steps[k - 1]);
    }
  }

  /** Random request tokens do not repeat. */
  ghost predicate TokensFresh(s: Sys) {
    forall h, j :: 0 <= h < j < |s.table.expectations| ==> s.table.expectations[h].token != s.table.expectations[j].token
  }

  predicate Received(s: Sys, h: nat, c: nat) {
    Handover(h, c) in s.handovers
  }

  lemma ReceivedHeld(s: Sys, h: nat, c: nat)
    requires HandoversSound(s) && Received(s, h, c)
    ensures c in s.takers && Got(s.takers[c]) && s.takers[c].handle == h
  {
    var i :| 0 <= i < |s.handovers| && s.handovers[i] == Handover(h, c);
  }

  /** A waiter receives at most one connection, a connection reaches at most one waiter, and neither happens twice. */
  lemma ExactlyOnce(trace: seq<Sys>, steps: seq<Step>, k: nat)
    requires IsRun(trace, steps) && k < |trace|
    ensures var done := trace[k].handovers;
            forall i, j :: 0 <= i < j < |done| ==> done[i].handle != done[j].handle && done[i].conn != done[j].conn
  {
    RunOk(trace, steps, k);
  }

  /** With fresh tokens each token hands over at most one connection, however often its offer is delivered. */
  lemma OncePerToken(trace: seq<Sys>, steps: seq<Step>, k: nat, h: nat, c: nat, j: nat, d: nat)
    requires IsRun(trace, steps) && k < |trace|
    requires TokensFresh(trace[k]) && Received(trace[k], h, c) && Received(trace[k], j, d)
    requires c in trace[k].attempts && d in trace[k].attempts
    requires trace[k].attempts[c].event.key == trace[k].attempts[d].event.key
    ensures h == j && c == d
  {
    RunOk(trace, steps, k);
    ReceivedHeld(trace[k], h, c);
    ReceivedHeld(trace[k], j, d);
  }

  /** A connection reaches only a waiter for the dialing node, the requested service and the event's token. */
  lemma OnlyTheBoundWaiter(trace: seq<Sys>, steps: seq<Step>, k: nat, h: nat, c: nat)
    requires IsRun(trace, steps) && k < |trace| && Received(trace[k], h, c)
    ensures c in trace[k].attempts && h < |trace[k].table.expectations|
    ensures var a := trace[k].attempts[c];
            a.node == a.event.target &&
            trace[k].table.expectations[h] == Expectation(a.event.key, a.event.target, a.event.service)
  {
    RunOk(trace, steps, k);
    ReceivedHeld(trace[k], h, c);
  }

  /** An automatic accept is sent only for a connection that a bound waiter has received. */
  lemma AcceptedMeansReceived(trace: seq<Sys>, steps: seq<Step>, k: nat, c: nat)
    requires IsRun(trace, steps) && k < |trace| && WorkerIn(trace[k], c, AcceptSent)
    ensures exists h: nat :: Received(trace[k], h, c) && h < |trace[k].table.expectations| &&
              trace[k].table.expectations[h] ==
                Expectation(trace[k].attempts[c].event.key, trace[k].attempts[c].event.target, trace[k].attempts[c].event.service)
  {
    RunOk(trace, steps, k);
    var h := trace[k].takers[c].handle;
    assert Received(trace[k], h, c);
    OnlyTheBoundWaiter(trace, steps, k, h, c);
  }

  /** Hence at most one dialed connection per token is ever accepted. */
  lemma OneAcceptPerToken(trace: seq<Sys>, steps: seq<Step>, k: nat, c: nat, d: nat)
    requires IsRun(trace, steps) && k < |trace| && TokensFresh(trace[k])
    requires WorkerIn(trace[k], c, AcceptSent) && WorkerIn(trace[k], d, AcceptSent)
    requires trace[k].attempts[c].event.key == trace[k].attempts[d].event.key
    ensures c == d
  {
    RunOk(trace, steps, k);
    assert Received(trace[k], trace[k].takers[c].handle, c);
    assert Received(trace[k], trace[k].takers[d].handle, d);
    OncePerToken(trace, steps, k, trace[k].takers[c].handle, c, trace[k].takers[d].handle, d);
  }

  /** Once a token's connection was received, a redelivered offer is turned away at the relay. */
  lemma RedeliveryRefused(trace: seq<Sys>, steps: seq<Step>, k: nat, h: nat, c: nat, d: nat)
    requires IsRun(trace, steps) && k < |trace| && TokensFresh(trace[k]) && Received(trace[k], h, c)
    requires Enabled(trace[k], TakeStep(d)) && c in trace[k].attempts && trace[k].attempts[d].event.key == trace[k].attempts[c].event.key
    ensures Taken(trace[k], d) == Refused
  {
    RunOk(trace, steps, k);
    ReceivedHeld(trace[k], h, c);
  }

  /** A node serves each request with at most one worker at a time. */
  lemma OneWorkerPerRequest(trace: seq<Sys>, steps: seq<Step>, k: nat, node: string, id: string, c: nat, d: nat)
    requires IsRun(trace, steps) && k < |trace| && c in trace[k].attempts && d in trace[k].attempts
    requires Busy(trace[k].attempts[c], node, id) && Busy(trace[k].attempts[d], node, id)
    ensures c == d
  {
    RunOk(trace, steps, k);
  }

  // ----- nobody is left behind -----

  /** How many steps a waiter can still make. */
  function Rank(phase: WaiterPhase): nat {
    match phase
    case Requesting => 4
    case Selecting => 3
    case Returning => 2
    case DoneClosed => 1
    case Withdrawn => 0
  }

  /** The step that a blocked taker or its waiter can make. */
  function NextFor(s: Sys, c: nat): Step
    requires c in s.takers && s.takers[c].Blocked? && s.takers[c].handle < |s.waiters|
  {
    var h := s.takers[c].handle;
    match s.waiters[h]
    case Requesting => RequestCreated(h)
    case Selecting => HandOver(c)
    case Returning => CloseStep(h)
    case _ => Release(c)
  }

  /**
   A taker blocks only while its waiter has received nothing; and it never blocks for good: it or
   its waiter can step, and that step either unblocks it or brings the waiter closer to its end.
   */
  lemma BlockedTakerIsServed(trace: seq<Sys>, steps: seq<Step>, k: nat, c: nat)
    requires IsRun(trace, steps) && k < |trace| && c in trace[k].takers && trace[k].takers[c].Blocked?
    ensures var s, h := trace[k], trace[k].takers[c].handle;
            h < |s.waiters| && (forall d :: !Received(s, h, d)) &&
            (h !in s.table.closed ==> s.waiters[h] == Requesting || s.waiters[h] == Selecting || s.waiters[h] == Returning) &&
            Enabled(s, NextFor(s, c))
    ensures var s, n := trace[k], Apply(trace[k], NextFor(trace[k], c));
            !n.takers[c].Blocked? ||
            (n.takers[c] == s.takers[c] && Rank(n.waiters[s.takers[c].handle]) < Rank(s.waiters[s.takers[c].handle]))
  {
    RunOk(trace, steps, k);
    BlockedEnabled(trace[k], c);
    NextServes(trace[k], c);
    var s, h := trace[k], trace[k].takers[c].handle;
    forall d ensures !Received(s, h, d) {
      if Received(s, h, d) {
        ReceivedHeld(s, h, d);
      }
    }
  }

  lemma BlockedEnabled(s: Sys, c: nat)
    requires TableSound(s) && ClosedSound(s) && TakersBound(s) && c in s.takers && s.takers[c].Blocked?
    ensures var h := s.takers[c].handle;
            h < |s.waiters| &&
            (h !in s.table.closed ==> s.waiters[h] == Requesting || s.waiters[h] == Selecting || s.waiters[h] == Returning) &&
            Enabled(s, NextFor(s, c))
  {
  }

  lemma NextServes(s: Sys, c: nat)
    requires c in s.takers && s.takers[c].Blocked? && s.takers[c].handle < |s.waiters| && Enabled(s, NextFor(s, c))
    ensures var n := Apply(s, NextFor(s, c));
            !n.takers[c].Blocked? ||
            (n.takers[c] == s.takers[c] && Rank(n.waiters[s.takers[c].handle]) < Rank(s.waiters[s.takers[c].handle]))
  {
  }

  /** No step puts a waiter back, and no step of others makes a taker block. */
  lemma WaitersOnlyAdvance(s: Sys, e: Step, h: nat)
    requires Enabled(s, e) && h < |s.waiters|
    ensures h < |Apply(s, e).waiters| && Rank(Apply(s, e).waiters[h]) <= Rank(s.waiters[h])
    ensures forall c :: c in s.takers ==> c in Apply(s, e).takers && (Apply(s, e).takers[c].Blocked? ==> Apply(s, e).takers[c] == s.takers[c])
  {
  }

  /** A waiter that has not left stays findable by an offer of its own, until one takes it. */
  lemma PendingWaiterFindable(trace: seq<Sys>, steps: seq<Step>, k: nat, h: nat)
    requires IsRun(trace, steps) && k < |trace| && TokensFresh(trace[k]) && h < |trace[k].waiters| && Waits(trace[k].waiters[h])
    ensures h < |trace[k].table.expectations|
    ensures var x := trace[k].table.expectations[h];
            IsTaken(trace[k], h) || Matching(trace[k].table, x.token, x.target, x.service) == Some(h)
  {
    RunOk(trace, steps, k);
    assert IsRegistered(trace[k], h) || IsTaken(trace[k], h) || IsReplaced(trace[k], h);
  }

  /** A waiter for this token, node and service, that has not withdrawn and that no offer has taken. */
  ghost predicate StandsFor(s: Sys, h: nat, token: string, node: string, service: string) {
    h < |s.waiters| && s.waiters[h] != Withdrawn && !IsTaken(s, h) &&
    h < |s.table.expectations| && s.table.expectations[h] == Expectation(token, node, service)
  }

  /** An offer is taken in exactly by the waiter that stands for it, and is refused exactly if there is none. */
  lemma OfferFindsItsWaiter(trace: seq<Sys>, steps: seq<Step>, k: nat, c: nat)
    requires IsRun(trace, steps) && k < |trace| && TokensFresh(trace[k]) && c in trace[k].attempts && c !in trace[k].takers
    ensures var a := trace[k].attempts[c];
            (forall h: nat :: Apply(trace[k], TakeStep(c)).takers[c] == Blocked(h) <==>
               StandsFor(trace[k], h, a.event.key, a.node, a.event.service)) &&
            (Apply(trace[k], TakeStep(c)).takers[c] == Refused <==>
               forall h: nat :: !StandsFor(trace[k], h, a.event.key, a.node, a.event.service))
  {
    RunOk(trace, steps, k);
    forall h: nat ensures Apply(trace[k], TakeStep(c)).takers[c] == Blocked(h) <==>
                          StandsFor(trace[k], h, trace[k].attempts[c].event.key, trace[k].attempts[c].node, trace[k].attempts[c].event.service)
    {
      TakerFinds(trace[k], c, h);
    }
  }

  lemma TakerFinds(s: Sys, c: nat, h: nat)
    requires TableSound(s) && RegisteredUntaken(s) && RegisteredOpen(s) && PendingSound(s) && TokensFresh(s) && c in s.attempts
    ensures Taken(s, c) == Blocked(h) <==>
            StandsFor(s, h, s.attempts[c].event.key, s.attempts[c].node, s.attempts[c].event.service)
  {
    if h < |s.waiters| && s.waiters[h] != Withdrawn {
      assert IsRegistered(s, h) || IsTaken(s, h) || IsReplaced(s, h);
    }
  }

  /** A node turns a redelivered offer away exactly while a worker of its own serves that request. */
  lemma DialsUnlessServed(trace: seq<Sys>, steps: seq<Step>, k: nat, c: nat, event: Connection)
    requires IsRun(trace, steps) && k < |trace| && c !in trace[k].attempts && event.returnRelay != ""
    ensures Enabled(trace[k], Dial(c, event.target, event)) <==> !IsServed(trace[k], event.target, event.id)
  {
    RunOk(trace, steps, k);
  }

  // ----- when a received connection is rejected -----

  ghost predicate ReadFailedBy(steps: seq<Step>, k: nat, c: nat) {
    exists i :: 0 <= i < k && i < |steps| && steps[i] == ReadFails(c)
  }

  ghost predicate ReadOkBy(steps: seq<Step>, k: nat, c: nat) {
    exists i :: 0 <= i < k && i < |steps| && steps[i] == ReadOk(c)
  }

  /** How a worker's phase goes with whether its read of OK has failed or succeeded. */
  predicate Tied(s: Sys, c: nat, failed: bool, ok: bool) {
    if c !in s.attempts then !failed && !ok
    else
      match s.attempts[c].phase
      case AwaitingOk => !failed && !ok
      case GotOk => ok && !failed
      case AcceptSent => ok && !failed
      case DialFailed => failed && !ok
      case RejectSent => failed && !ok
      case Crashed => !(failed && ok)
  }

  lemma TiedStep(s: Sys, e: Step, c: nat, failed: bool, ok: bool)
    requires Enabled(s, e) && Tied(s, c, failed, ok)
    ensures Tied(Apply(s, e), c, failed || e == ReadFails(c), ok || e == ReadOk(c))
  {
  }

  lemma {:induction false} PhaseFollowsRead(trace: seq<Sys>, steps: seq<Step>, k: nat, c: nat)
    requires IsRun(trace, steps) && k < |trace|
    ensures Tied(trace[k], c, ReadFailedBy(steps, k, c), ReadOkBy(steps, k, c))
  {
    if k > 0 {
      PhaseFollowsRead(trace, steps, k - 1, c);
      TiedStep(trace[k - 1], steps[k - 1], c, ReadFailedBy(steps, k - 1, c), ReadOkBy(steps, k - 1, c));
      ReadsGrow(steps, k, c);
    }
  }

  lemma ReadsGrow(steps: seq<Step>, k: nat, c: nat)
    requires 0 < k <= |steps|
    ensures ReadFailedBy(steps, k, c) <==> ReadFailedBy(steps, k - 1, c) || steps[k - 1] == ReadFails(c)
    ensures ReadOkBy(steps, k, c) <==> ReadOkBy(steps, k - 1, c) || steps[k - 1] == ReadOk(c)
  {
  }

  /**
   A received connection is rejected, or about to be, exactly if its worker's read of the relay's OK
   failed; it is accepted, or about to be, exactly if the read succeeded. A crashed worker does neither.
   */
  lemma ReceivedThenRead(trace: seq<Sys>, steps: seq<Step>, k: nat, h: nat, c: nat)
    requires IsRun(trace, steps) && k < |trace| && Received(trace[k], h, c)
    ensures c in trace[k].attempts
    ensures WorkerIn(trace[k], c, RejectSent) || WorkerIn(trace[k], c, DialFailed) <==>
            ReadFailedBy(steps, k, c) && !WorkerIn(trace[k], c, Crashed)
    ensures WorkerIn(trace[k], c, AcceptSent) || WorkerIn(trace[k], c, GotOk) <==>
            ReadOkBy(steps, k, c) && !WorkerIn(trace[k], c, Crashed)
    ensures !(ReadFailedBy(steps, k, c) && ReadOkBy(steps, k, c))
  {
    OnlyTheBoundWaiter(trace, steps, k, h, c);
    PhaseFollowsRead(trace, steps, k, c);
  }

  const LATE := Connection("id", "key", "relay", "node", "svc", "relay", Offered, 102, "", 1, 0, 0, 100, Some(30))

  /** The one waiter and the one attempt of the example; the token is registered until it is taken. */
  function Scene(waiter: WaiterPhase, attempt: Option<WorkerPhase>, taker: Option<TakerPhase>, received: bool): Sys {
    Sys(Table(if taker.None? then map["key" := 0] else map[], [Expectation("key", "node", "svc")], {}),
        [waiter],
        if taker.None? then map[] else map[7 := taker.value],
        if attempt.None? then map[] else map[7 := Attempt("node", LATE, attempt.value)],
        if attempt.Some? && Active(attempt.value) then {("node", "id")} else {},
        if received then [Handover(0, 7)] else [])
  }

  predicate Leads(s: Sys, e: Step, n: Sys) {
    Enabled(s, e) && Apply(s, e) == n
  }

  lemma SceneBegins()
    ensures Leads(INITIAL, StartWaiting("key", "node", "svc"), Scene(Requesting, None, None, false))
    ensures Leads(Scene(Requesting, None, None, false), RequestCreated(0), Scene(Selecting, None, None, false))
    ensures Leads(Scene(Selecting, None, None, false), Dial(7, "node", LATE), Scene(Selecting, Some(AwaitingOk), None, false))
  {
  }

  lemma SceneHandsOver()
    ensures Leads(Scene(Selecting, Some(AwaitingOk), None, false), TakeStep(7),
                  Scene(Selecting, Some(AwaitingOk), Some(Blocked(0)), false))
    ensures Leads(Scene(Selecting, Some(AwaitingOk), Some(Blocked(0)), false), HandOver(7),
                  Scene(Returning, Some(AwaitingOk), Some(Delivered(0)), true))
  {
  }

  lemma SceneRejects()
    ensures Leads(Scene(Returning, Some(AwaitingOk), Some(Delivered(0)), true), ReadFails(7),
                  Scene(Returning, Some(DialFailed), Some(Delivered(0)), true))
    ensures Leads(Scene(Returning, Some(DialFailed), Some(Delivered(0)), true), SendReject(7),
                  Scene(Returning, Some(RejectSent), Some(Delivered(0)), true))
  {
  }

  lemma Extend(trace: seq<Sys>, steps: seq<Step>, e: Step, n: Sys)
    requires IsRun(trace, steps) && Leads(trace[|steps|], e, n)
    ensures IsRun(trace + [n], steps + [e])
  {
    var more, all := trace + [n], steps + [e];
    forall i | 0 <= i < |all| ensures Enabled(more[i], all[i]) && more[i + 1] == Apply(more[i], all[i]) {
      assert i < |steps| ==> Enabled(trace[i], steps[i]);
    }
  }

  /**
   The converse of AcceptedMeansReceived fails: the waiter has the connection, but the worker does
   not read the relay's OK in time and sends a rejection.
   */
  lemma ReceivedButRejected()
    ensures exists trace, steps :: IsRun(trace, steps) &&
              Received(trace[|steps|], 0, 7) && WorkerIn(trace[|steps|], 7, RejectSent)
  {
    SceneBegins();
    SceneHandsOver();
    SceneRejects();
    var trace, steps := [INITIAL], [];
    var rest := [(StartWaiting("key", "node", "svc"), Scene(Requesting, None, None, false)),
                 (RequestCreated(0), Scene(Selecting, None, None, false)),
                 (Dial(7, "node", LATE), Scene(Selecting, Some(AwaitingOk), None, false)),
                 (TakeStep(7), Scene(Selecting, Some(AwaitingOk), Some(Blocked(0)), false)),
                 (HandOver(7), Scene(Returning, Some(AwaitingOk), Some(Delivered(0)), true)),
                 (ReadFails(7), Scene(Returning, Some(DialFailed), Some(Delivered(0)), true)),
                 (SendReject(7), Scene(Returning, Some(RejectSent), Some(Delivered(0)), true))];
    for i := 0 to 7
      invariant IsRun(trace, steps) && |steps| == i
      invariant trace[i] == if i == 0 then INITIAL else rest[i - 1].1
    {
      Extend(trace, steps, rest[i].0, rest[i].1);
      trace, steps := trace + [rest[i].1], steps + [rest[i].0];
    }
  }
}
