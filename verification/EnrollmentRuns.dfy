/** Runs of the enrollment machine, and what holds throughout each of them. */
module EnrollmentRuns {
  import opened Prelude
  import opened Topology
  import NodeTable
  import opened Enrollment

  /** issued - every request ID handed out so far; random IDs do not repeat. */
  datatype Sys = Sys(state: State, issued: set<string>)

  /** `found` is where the search by device code ended; `victims` what the trimming took. */
  datatype Event =
    | RequestEvent(input: Input, id: Option<string>, drawn: Option<string>, order: seq<string>, victims: set<string>, now: Time)
    | ApproveEvent(code: string, found: Option<string>, replace: bool, order: seq<string>, victims: set<string>, now: Time)
    | RejectEvent(code: string, found: Option<string>, reason: string, order: seq<string>, victims: set<string>, now: Time)
    | RevokeEvent(nodeId: string, now: Time)
    | HeartbeatEvent(node: Node, order: seq<string>, victims: set<string>, now: Time)
    | SweepEvent(order: seq<string>, victims: set<string>, now: Time)

  ghost predicate Enabled(sys: Sys, e: Event) {
    var s := sys.state;
    match e
    case RequestEvent(_, id, code, order, victims, now) =>
      SweepEnabled(s, order, victims, now) &&
      (id.Some? ==> id.value != "" && id.value !in sys.issued) &&
      (code.Some? ==> code.value != "" && !CodeTaken(Sweep(s, order, victims, now).pending, code.value))
    case ApproveEvent(code, found, _, order, victims, now) =>
      SweepEnabled(s, order, victims, now) && IsFound(Sweep(s, order, victims, now).pending, code, found)
    case RejectEvent(code, found, _, order, victims, now) =>
      SweepEnabled(s, order, victims, now) && IsFound(Sweep(s, order, victims, now).pending, code, found)
    case RevokeEvent(_, _) => true
    case HeartbeatEvent(n, order, victims, now) =>
      n.id in s.authorized && SweepEnabled(Register(s, n, now), order, victims, now)
    case SweepEvent(order, victims, now) => SweepEnabled(s, order, victims, now)
  }

  ghost function After(s: State, e: Event): State
    requires e.HeartbeatEvent? ==> e.node.id in s.authorized
  {
    match e
    case RequestEvent(input, id, code, order, victims, now) =>
      var m := Sweep(s, order, victims, now);
      if RequestStatus(m, input, id, code) == 201 then Admit(m, input, id.value, code.value, now) else m
    case ApproveEvent(_, found, replace, order, victims, now) =>
      Approve(Sweep(s, order, victims, now), found, replace, now)
    case RejectEvent(_, found, reason, order, victims, now) =>
      Reject(Sweep(s, order, victims, now), found, reason, now)
    case RevokeEvent(node, now) => Revoke(s, node, now)
    case HeartbeatEvent(n, order, victims, now) => Sweep(Register(s, n, now), order, victims, now)
    case SweepEvent(order, victims, now) => Sweep(s, order, victims, now)
  }

  ghost function Apply(sys: Sys, e: Event): Sys
    requires Enabled(sys, e)
  {
    Sys(After(sys.state, e), if e.RequestEvent? && e.id.Some? then sys.issued + {e.id.value} else sys.issued)
  }

  ghost predicate IsRun(trace: seq<Sys>, events: seq<Event>) {
    && |trace| == |events| + 1
    && trace[0] == Sys(EMPTY, {})
    && (forall i :: 0 <= i < |events| ==> Enabled(trace[i], events[i]) && trace[i + 1] == Apply(trace[i], events[i]))
  }

  ghost predicate IssuedOk(sys: Sys) {
    sys.state.pending.Keys <= sys.issued && sys.state.history.Keys <= sys.issued
  }

  lemma StateStep(sys: Sys, e: Event)
    requires StateOk(sys.state) && IssuedOk(sys) && Enabled(sys, e)
    ensures StateOk(After(sys.state, e))
  {
    var s := sys.state;
    match e
    case RequestEvent(input, id, code, order, victims, now) =>
      SweepOk(s, order, victims, now);
      if RequestStatus(Sweep(s, order, victims, now), input, id, code) == 201 {
        AdmitOk(Sweep(s, order, victims, now), input, id.value, code.value, now);
      }
    case ApproveEvent(_, found, replace, order, victims, now) =>
      SweepOk(s, order, victims, now);
      ApproveOk(Sweep(s, order, victims, now), found, replace, now);
    case RejectEvent(_, found, reason, order, victims, now) =>
      SweepOk(s, order, victims, now);
      RejectOk(Sweep(s, order, victims, now), found, reason, now);
    case RevokeEvent(node, now) => RevokeOk(s, node, now);
    case HeartbeatEvent(n, order, victims, now) =>
      RegisterOk(s, n, now);
      SweepOk(Register(s, n, now), order, victims, now);
    case SweepEvent(order, victims, now) => SweepOk(s, order, victims, now);
  }

  lemma IssuedStep(sys: Sys, e: Event)
    requires IssuedOk(sys) && Enabled(sys, e)
    ensures IssuedOk(Apply(sys, e))
  {
  }

  lemma {:induction false} RunOk(trace: seq<Sys>, events: seq<Event>, k: nat)
    requires IsRun(trace, events) && k < |trace|
    ensures StateOk(trace[k].state) && IssuedOk(trace[k])
  {
    if k > 0 {
      RunOk(trace, events, k - 1);
      StateStep(trace[k - 1], events[k - 1]);
      IssuedStep(trace[k - 1], events[k - 1]);
    }
  }

  // ----- what an administrator sees -----

  /** In every run: codes are distinct, flags exclude each other, and retained history tells the flags. */
  lemma PendingIsTruthful(trace: seq<Sys>, events: seq<Event>, k: nat, a: string, b: string)
    requires IsRun(trace, events) && k < |trace| && a in trace[k].state.pending && b in trace[k].state.pending
    ensures var s := trace[k].state;
            (s.pending[a].code == s.pending[b].code ==> a == b) &&
            !(s.pending[a].approved && s.pending[a].rejected) &&
            (a in s.history ==>
               (s.history[a].status == 200 <==> s.pending[a].approved) &&
               (s.history[a].status == 403 <==> s.pending[a].rejected) &&
               (s.history[a].status == 100 <==> !s.pending[a].approved && !s.pending[a].rejected))
  {
    RunOk(trace, events, k);
  }

  /** Whichever order the search visits, approve and reject pick the same handshake. */
  lemma DecisionsPickTheSame(trace: seq<Sys>, events: seq<Event>, k: nat, code: string, a: Option<string>, b: Option<string>)
    requires IsRun(trace, events) && k < |trace|
    requires IsFound(trace[k].state.pending, code, a) && IsFound(trace[k].state.pending, code, b)
    ensures a == b
  {
    RunOk(trace, events, k);
    SearchUnique(trace[k].state.pending, code, a, b);
  }

  /** The limits on pending handshakes, and active nodes are authorized. */
  lemma BoundsHold(trace: seq<Sys>, events: seq<Event>, k: nat, source: string)
    requires IsRun(trace, events) && k < |trace|
    ensures |trace[k].state.pending| <= MAX_PENDING && |FromSource(trace[k].state.pending, source)| <= MAX_PER_SOURCE
    ensures trace[k].state.table.nodes.Keys <= trace[k].state.authorized.Keys
  {
    RunOk(trace, events, k);
  }

  // ----- the bound on history -----

  /** The clock shows instants after the zero time. */
  ghost predicate ClockRuns(events: seq<Event>) {
    forall i :: 0 <= i < |events| && events[i].RequestEvent? ==> events[i].now > NodeTable.ZERO_TIME
  }

  lemma SweepAges(s: State, order: seq<string>, victims: set<string>, now: Time)
    requires AgesOk(s.history)
    ensures AgesOk(Lapsed(s.pending, s.history, now)) && AgesOk(Sweep(s, order, victims, now).history)
  {
  }

  lemma DecisionAges(s: State, found: Option<string>, replace: bool, reason: string, now: Time)
    requires StateOk(s) && AgesOk(s.history)
    ensures AgesOk(Approve(s, found, replace, now).history) && AgesOk(Reject(s, found, reason, now).history)
  {
  }

  lemma MarkedAges(history: History, ids: set<string>, status: int, now: Time)
    requires AgesOk(history) && "" !in ids
    ensures AgesOk(Marked(history, ids, status, now))
  {
  }

  lemma AgesStep(sys: Sys, e: Event)
    requires StateOk(sys.state) && AgesOk(sys.state.history) && Enabled(sys, e)
    requires e.RequestEvent? ==> e.now > NodeTable.ZERO_TIME
    ensures AgesOk(After(sys.state, e).history)
  {
    var s := sys.state;
    match e
    case RequestEvent(_, _, _, order, victims, now) => SweepAges(s, order, victims, now);
    case ApproveEvent(_, found, replace, order, victims, now) =>
      SweepOk(s, order, victims, now);
      SweepAges(s, order, victims, now);
      DecisionAges(Sweep(s, order, victims, now), found, replace, "", now);
    case RejectEvent(_, found, reason, order, victims, now) =>
      SweepOk(s, order, victims, now);
      SweepAges(s, order, victims, now);
      DecisionAges(Sweep(s, order, victims, now), found, false, reason, now);
    case RevokeEvent(nodeId, now) => MarkedAges(s.history, HandshakesOf(s.pending, nodeId), 403, now);
    case HeartbeatEvent(n, order, victims, now) =>
      MarkedAges(s.history, Completes(s.pending, n.id, s.authorized[n.id]), 201, now);
      SweepAges(Register(s, n, now), order, victims, now);
    case SweepEvent(order, victims, now) => SweepAges(s, order, victims, now);
  }

  lemma {:induction false} RunAges(trace: seq<Sys>, events: seq<Event>, k: nat)
    requires IsRun(trace, events) && ClockRuns(events) && k < |trace|
    ensures AgesOk(trace[k].state.history)
  {
    if k > 0 {
      RunAges(trace, events, k - 1);
      RunOk(trace, events, k - 1);
      AgesStep(trace[k - 1], events[k - 1]);
    }
  }

  /** In every run a sweep leaves the history within its limit exactly if it was, or no entry was ever written back. */
  lemma HistoryBound(trace: seq<Sys>, events: seq<Event>, k: nat, order: seq<string>, victims: set<string>, now: Time)
    requires IsRun(trace, events) && ClockRuns(events) && k < |trace| && SweepEnabled(trace[k].state, order, victims, now)
    ensures var h := trace[k].state.history;
            |Sweep(trace[k].state, order, victims, now).history| <= MAX_HISTORY <==>
            |h| <= MAX_HISTORY || forall id :: id in h ==> h[id].requestId == id
  {
    RunOk(trace, events, k);
    RunAges(trace, events, k);
    SweepBound(trace[k].state, order, victims, now);
  }

  lemma SweepBound(s: State, order: seq<string>, victims: set<string>, now: Time)
    requires HistoryIds(s.history) && AgesOk(s.history) && SweepEnabled(s, order, victims, now)
    ensures |Sweep(s, order, victims, now).history| <= MAX_HISTORY <==>
            |s.history| <= MAX_HISTORY || forall id :: id in s.history ==> s.history[id].requestId == id
  {
    var lapsed := Lapsed(s.pending, s.history, now);
    SweepAges(s, order, victims, now);
    LapsedIds(s.pending, s.history, now);
    TrimMeetsLimit(lapsed, victims);
  }

  lemma LapsedIds(pending: Handshakes, history: History, now: Time)
    ensures |Lapsed(pending, history, now)| == |history|
    ensures HistoryIds(history) ==> HistoryIds(Lapsed(pending, history, now))
    ensures (forall id :: id in Lapsed(pending, history, now) ==> Lapsed(pending, history, now)[id].requestId == id) <==>
            forall id :: id in history ==> history[id].requestId == id
  {
    var lapsed := Lapsed(pending, history, now);
    assert lapsed.Keys == history.Keys;
    assert |lapsed| == |lapsed.Keys| && |history| == |history.Keys|;
  }

  // ----- final statuses -----

  predicate Final(status: int) {
    status == 201 || status == 403 || status == 410
  }

  /** Request `id` can only be found with status `st` from here on. */
  predicate Fixed(s: State, id: string, st: int) {
    && (id in s.history ==> s.history[id].status == st)
    && (id in s.pending ==> st == 403 && s.pending[id].rejected)
  }

  lemma FixedSweep(s: State, order: seq<string>, victims: set<string>, now: Time, id: string, st: int)
    requires FlagsOk(s.pending) && Final(st) && Fixed(s, id, st)
    ensures Fixed(Sweep(s, order, victims, now), id, st)
  {
  }

  lemma FixedStep(sys: Sys, e: Event, id: string, st: int)
    requires StateOk(sys.state) && Enabled(sys, e) && id in sys.issued && Final(st) && Fixed(sys.state, id, st)
    ensures Fixed(After(sys.state, e), id, st)
  {
    var s := sys.state;
    match e
    case RequestEvent(_, _, _, order, victims, now) => FixedSweep(s, order, victims, now, id, st);
    case ApproveEvent(_, found, replace, order, victims, now) =>
      FixedSweep(s, order, victims, now, id, st);
    case RejectEvent(_, found, _, order, victims, now) => FixedSweep(s, order, victims, now, id, st);
    case RevokeEvent(node, now) =>
    case HeartbeatEvent(n, order, victims, now) =>
      FixedRegister(s, n, now, id, st);
      RegisterOk(s, n, now);
      FixedSweep(Register(s, n, now), order, victims, now, id, st);
    case SweepEvent(order, victims, now) => FixedSweep(s, order, victims, now, id, st);
  }

  lemma FixedRegister(s: State, n: Node, now: Time, id: string, st: int)
    requires FlagsOk(s.pending) && n.id in s.authorized && Fixed(s, id, st)
    ensures Fixed(Register(s, n, now), id, st)
  {
  }

  lemma FixedStart(sys: Sys, id: string)
    requires StateOk(sys.state) && IssuedOk(sys)
    requires id in sys.state.history && Final(sys.state.history[id].status)
    ensures Fixed(sys.state, id, sys.state.history[id].status) && id in sys.issued
  {
  }

  lemma {:induction false} FixedStays(trace: seq<Sys>, events: seq<Event>, i: nat, j: nat, id: string, st: int)
    requires IsRun(trace, events) && i <= j < |trace|
    requires Final(st) && Fixed(trace[i].state, id, st) && id in trace[i].issued
    ensures Fixed(trace[j].state, id, st) && id in trace[j].issued
  {
    if i < j {
      FixedStays(trace, events, i, j - 1, id, st);
      RunOk(trace, events, j - 1);
      FixedStep(trace[j - 1], events[j - 1], id, st);
    }
  }

  /** Once a request is completed, refused or expired, its history entry never says anything else. */
  lemma FinalStatusesStay(trace: seq<Sys>, events: seq<Event>, i: nat, j: nat, id: string)
    requires IsRun(trace, events) && i <= j < |trace|
    requires id in trace[i].state.history && Final(trace[i].state.history[id].status)
    ensures id in trace[j].state.history ==> trace[j].state.history[id].status == trace[i].state.history[id].status
    ensures id in trace[j].state.pending ==> trace[j].state.pending[id].rejected && trace[i].state.history[id].status == 403
  {
    RunOk(trace, events, i);
    FixedStart(trace[i], id);
    FixedStays(trace, events, i, j, id, trace[i].state.history[id].status);
  }

  /** A completed or expired request is gone from the pending table for good. */
  lemma CompletedNeverPending(trace: seq<Sys>, events: seq<Event>, i: nat, j: nat, id: string)
    requires IsRun(trace, events) && i <= j < |trace| && id in trace[i].state.history
    requires trace[i].state.history[id].status == 201 || trace[i].state.history[id].status == 410
    ensures id !in trace[j].state.pending
  {
    FinalStatusesStay(trace, events, i, j, id);
  }

  // ----- keys -----

  /** The steps that may give a node another key: an explicit replacement, or a revocation. */
  ghost predicate ChangesKey(sys: Sys, e: Event, node: string) {
    (e.RevokeEvent? && e.nodeId == node) ||
    (e.ApproveEvent? && e.replace && e.found.Some? && e.found.value in sys.state.pending &&
     sys.state.pending[e.found.value].node.id == node)
  }

  lemma KeyStep(sys: Sys, e: Event, node: string)
    requires Enabled(sys, e) && node in sys.state.authorized && !ChangesKey(sys, e, node)
    ensures node in After(sys.state, e).authorized && After(sys.state, e).authorized[node] == sys.state.authorized[node]
  {
  }

  /** A node's authorized key changes only by explicit replacement or after a revocation. */
  lemma {:induction false} KeyChangesOnlyOpenly(trace: seq<Sys>, events: seq<Event>, i: nat, j: nat, node: string)
    requires IsRun(trace, events) && i <= j < |trace|
    requires node in trace[i].state.authorized
    requires node !in trace[j].state.authorized || trace[j].state.authorized[node] != trace[i].state.authorized[node]
    ensures exists m :: i <= m < j && ChangesKey(trace[m], events[m], node)
  {
    if node in trace[j - 1].state.authorized && trace[j - 1].state.authorized[node] == trace[i].state.authorized[node] {
      if !ChangesKey(trace[j - 1], events[j - 1], node) {
        KeyStep(trace[j - 1], events[j - 1], node);
      }
    } else {
      KeyChangesOnlyOpenly(trace, events, i, j - 1, node);
    }
  }
}
