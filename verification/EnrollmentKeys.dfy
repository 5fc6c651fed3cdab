/** In every run: which key a node is authorized with. */
module EnrollmentKeys {
  import opened Prelude
  import opened Topology
  import opened Enrollment
  import opened EnrollmentRuns

  /** Between these states a handshake of the node, with this key, becomes approved. */
  ghost predicate Approved(s: State, n: State, node: string, key: string) {
    exists id :: ApprovedAs(s, n, id, node, key)
  }

  ghost predicate ApprovedAs(s: State, n: State, id: string, node: string, key: string) {
    id in s.pending && !s.pending[id].approved && id in n.pending && n.pending[id].approved &&
    s.pending[id].node.id == node && s.pending[id].key == key
  }

  ghost predicate ApprovedNow(s: State, n: State, node: string) {
    exists key :: Approved(s, n, node, key)
  }

  predicate Revokes(e: Event, node: string) {
    e.RevokeEvent? && e.nodeId == node
  }

  predicate HasKey(s: State, node: string, key: string) {
    node in s.authorized && s.authorized[node] == key
  }

  /** One event: an approval gives the node that handshake's key, a revocation takes it, nothing else touches it. */
  ghost predicate KeyMoves(s: State, n: State, revoked: bool, node: string) {
    if ApprovedNow(s, n, node) then node in n.authorized && forall key :: Approved(s, n, node, key) <==> n.authorized[node] == key
    else if revoked then node !in n.authorized
    else (node in n.authorized <==> node in s.authorized) && (node in s.authorized ==> n.authorized[node] == s.authorized[node])
  }

  /** Without an approval no flag goes up. */
  ghost predicate NoFlagUp(s: State, n: State) {
    forall id :: id in s.pending && id in n.pending ==> n.pending[id] == s.pending[id] || !n.pending[id].approved || s.pending[id].approved
  }

  lemma QuietKeys(s: State, n: State, revoked: bool, node: string)
    requires NoFlagUp(s, n)
    requires if revoked then node !in n.authorized
             else (node in n.authorized <==> node in s.authorized) && (node in s.authorized ==> n.authorized[node] == s.authorized[node])
    ensures KeyMoves(s, n, revoked, node)
  {
    forall id, key ensures !ApprovedAs(s, n, id, node, key) {
    }
  }

  /** An approval event on the swept state `m`. */
  lemma ApproveKeys(s: State, m: State, found: Option<string>, replace: bool, now: Time, node: string)
    requires m.authorized == s.authorized && (found.Some? ==> found.value in m.pending)
    requires forall id :: id in m.pending ==> id in s.pending && s.pending[id] == m.pending[id]
    ensures KeyMoves(s, Approve(m, found, replace, now), false, node)
  {
    var n := Approve(m, found, replace, now);
    if ApproveStatus(m, found, replace) == 200 && !m.pending[found.value].approved {
      var id, h := found.value, m.pending[found.value];
      assert ApprovedAs(s, n, id, h.node.id, h.key);
      assert Approved(s, n, h.node.id, h.key);
      forall key ensures Approved(s, n, node, key) <==> node == h.node.id && key == h.key {
        if Approved(s, n, node, key) {
          var w :| ApprovedAs(s, n, w, node, key);
          assert w == id;
        }
      }
    } else {
      QuietKeys(s, n, false, node);
    }
  }

  lemma SweepKeys(s: State, order: seq<string>, victims: set<string>, now: Time)
    ensures var m := Sweep(s, order, victims, now);
            m.authorized == s.authorized && forall id :: id in m.pending ==> id in s.pending && s.pending[id] == m.pending[id]
  {
  }

  lemma OtherKeys(sys: Sys, e: Event, node: string)
    requires IssuedOk(sys) && Enabled(sys, e) && !e.ApproveEvent?
    ensures KeyMoves(sys.state, After(sys.state, e), Revokes(e, node), node)
  {
    var s, n := sys.state, After(sys.state, e);
    match e
    case RequestEvent(_, _, _, order, victims, now) => SweepKeys(s, order, victims, now);
    case RejectEvent(_, _, _, order, victims, now) => SweepKeys(s, order, victims, now);
    case RevokeEvent(_, _) =>
    case HeartbeatEvent(m, order, victims, now) => SweepKeys(Register(s, m, now), order, victims, now);
    case SweepEvent(order, victims, now) => SweepKeys(s, order, victims, now);
    QuietKeys(s, n, Revokes(e, node), node);
  }

  lemma StepKeys(sys: Sys, e: Event, node: string)
    requires IssuedOk(sys) && Enabled(sys, e)
    ensures KeyMoves(sys.state, After(sys.state, e), Revokes(e, node), node)
  {
    if e.ApproveEvent? {
      SweepKeys(sys.state, e.order, e.victims, e.now);
      ApproveKeys(sys.state, Sweep(sys.state, e.order, e.victims, e.now), e.found, e.replace, e.now, node);
    } else {
      OtherKeys(sys, e, node);
    }
  }

  // ----- runs -----

  /** Event k approved this key for the node, and until j nothing has approved another or revoked the node. */
  ghost predicate LastApproval(trace: seq<Sys>, events: seq<Event>, k: nat, j: nat, node: string, key: string)
    requires |trace| == |events| + 1 && k < j < |trace|
  {
    Approved(trace[k].state, trace[k + 1].state, node, key) && Undisturbed(trace, events, k + 1, j, node)
  }

  ghost predicate Undisturbed(trace: seq<Sys>, events: seq<Event>, from: nat, j: nat, node: string)
    requires |trace| == |events| + 1 && from <= j < |trace|
  {
    forall m :: from <= m < j ==> LeavesKey(trace[m].state, trace[m + 1].state, events[m], node)
  }

  ghost predicate LeavesKey(s: State, n: State, e: Event, node: string) {
    !ApprovedNow(s, n, node) && !Revokes(e, node)
  }

  ghost predicate HasLastApproval(trace: seq<Sys>, events: seq<Event>, j: nat, node: string, key: string)
    requires |trace| == |events| + 1 && j < |trace|
  {
    exists k: nat :: k < j && LastApproval(trace, events, k, j, node, key)
  }

  /** How the last approval moves on with one more event. */
  lemma NextApproval(trace: seq<Sys>, events: seq<Event>, j: nat, node: string, key: string)
    requires |trace| == |events| + 1 && 0 < j < |trace|
    ensures var s, n := trace[j - 1].state, trace[j].state;
            HasLastApproval(trace, events, j, node, key) <==>
            Approved(s, n, node, key) || (LeavesKey(s, n, events[j - 1], node) && HasLastApproval(trace, events, j - 1, node, key))
  {
    var s, n := trace[j - 1].state, trace[j].state;
    if Approved(s, n, node, key) {
      assert LastApproval(trace, events, j - 1, j, node, key);
    }
    if HasLastApproval(trace, events, j, node, key) {
      var k: nat :| k < j && LastApproval(trace, events, k, j, node, key);
      if k < j - 1 {
        assert LeavesKey(trace[j - 1].state, trace[j - 1 + 1].state, events[j - 1], node);
        assert LastApproval(trace, events, k, j - 1, node, key);
      }
    }
    if LeavesKey(s, n, events[j - 1], node) && HasLastApproval(trace, events, j - 1, node, key) {
      var k: nat :| k < j - 1 && LastApproval(trace, events, k, j - 1, node, key);
      assert LastApproval(trace, events, k, j, node, key);
    }
  }

  /** An authorized key is exactly that of the last handshake approved for its node since the node's last revocation. */
  lemma {:induction false} KeyOfLastApproval(trace: seq<Sys>, events: seq<Event>, j: nat, node: string, key: string)
    requires IsRun(trace, events) && j < |trace|
    ensures HasKey(trace[j].state, node, key) <==> HasLastApproval(trace, events, j, node, key)
  {
    if j > 0 {
      KeyOfLastApproval(trace, events, j - 1, node, key);
      NextApproval(trace, events, j, node, key);
      KeyStep(trace, events, j - 1, node, key);
    }
  }

  lemma KeyStep(trace: seq<Sys>, events: seq<Event>, i: nat, node: string, key: string)
    requires IsRun(trace, events) && i < |events|
    ensures HasKey(trace[i + 1].state, node, key) <==>
            Approved(trace[i].state, trace[i + 1].state, node, key) ||
            (LeavesKey(trace[i].state, trace[i + 1].state, events[i], node) && HasKey(trace[i].state, node, key))
  {
    RunOk(trace, events, i);
    assert Enabled(trace[i], events[i]);
    StepKeys(trace[i], events[i], node);
    assert trace[i + 1].state == After(trace[i].state, events[i]);
    assert Approved(trace[i].state, trace[i + 1].state, node, key) ==> ApprovedNow(trace[i].state, trace[i + 1].state, node);
  }
}
