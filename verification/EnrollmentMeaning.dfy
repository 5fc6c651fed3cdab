/**
 What the enrollment handlers mean, in the terms of internal/app/coordinator_enrollment.go and of
 the enrollment parts of internal/app/coordinator_nodes.go. Nothing here is said through the
 functions that Enrollment computes with.
 */
module EnrollmentMeaning {
  import opened Prelude
  import opened Topology
  import NodeTable
  import opened Enrollment

  /** One history entry has this status and instant, and keeps the rest of what it was; the other entries are untouched. */
  ghost predicate Told(before: History, after: History, id: string, status: int, reason: string, now: Time) {
    && id in after && after == before[id := after[id]]
    && after[id] == (if id in before then before[id] else after[id]).(status := status, reason := reason, handledAt := now)
  }

  ghost function ReasonOf(history: History, id: string): string {
    if id in history then history[id].reason else ""
  }

  // ----- the sweep -----

  /** A handshake stays exactly until its end, unchanged. */
  lemma ExpiryMeans(s: State, order: seq<string>, victims: set<string>, now: Time, id: string)
    requires SweepEnabled(s, order, victims, now)
    ensures var n := Sweep(s, order, victims, now);
            n.authorized == s.authorized &&
            (id in n.pending <==> id in s.pending && s.pending[id].expiresAt >= now) &&
            (id in n.pending ==> n.pending[id] == s.pending[id])
  {
  }

  /** Retained history of an overdue handshake that was still open becomes 410; all other retained history stays. */
  lemma HistoryMeans(s: State, order: seq<string>, victims: set<string>, now: Time, id: string)
    requires SweepEnabled(s, order, victims, now) && id in Sweep(s, order, victims, now).history
    ensures id in s.history
    ensures Sweep(s, order, victims, now).history[id] ==
            if id in s.pending && s.pending[id].expiresAt < now && (s.history[id].status == 100 || s.history[id].status == 200)
            then s.history[id].(status := 410, handledAt := now) else s.history[id]
  {
  }

  /** Trimming takes nothing within the limit, and of the entries that carry their ID never a younger one than it keeps. */
  lemma TrimMeans(history: History, victims: set<string>, gone: string)
    requires HistoryIds(history) && IsSurplus(history, victims) && gone in history && gone !in Trimmed(history, victims)
    ensures |history| > 10000
    ensures forall kept :: kept in Trimmed(history, victims) && history[kept].requestId == kept ==>
              history[gone].createdAt <= history[kept].createdAt
  {
    var v :| v in victims && history[v].requestId == gone;
    assert v == gone;
  }

  // ----- requests -----

  /** The refusals of a request on a swept state, in their order; 201 when an ID and a code may be drawn. */
  ghost function Refusal(s: State, input: Input): int {
    var n := input.node;
    if n.role == Subnode &&
       !(n.upstream in s.table.nodes && s.table.nodes[n.upstream].role == Relay &&
         s.table.nodes[n.upstream].segment == n.segment && s.table.nodes[n.upstream].network == n.network) then 400
    else if |s.pending| >= 1024 then 503
    else if |set id | id in s.pending && s.pending[id].source == input.source| >= 10 then 429
    else 201
  }

  lemma RequestMeans(s: State, input: Input, id: Option<string>, code: Option<string>)
    ensures RequestStatus(s, input, id, code) ==
            if Refusal(s, input) != 201 then Refusal(s, input) else if id == None || code == None then 503 else 201
  {
    assert FromSource(s.pending, input.source) == set id | id in s.pending && s.pending[id].source == input.source;
  }

  /** An admitted handshake waits ten minutes, undecided, with what was sent and drawn. */
  lemma AdmitMeans(s: State, input: Input, id: string, code: string, now: Time)
    ensures var n := Admit(s, input, id, code, now);
            id in n.pending && n.pending == s.pending[id := n.pending[id]] &&
            n.pending[id].node == input.node && n.pending[id].key == input.key && n.pending[id].source == input.source &&
            n.pending[id].code == code && n.pending[id].expiresAt == now + 10 * MINUTE &&
            !n.pending[id].approved && !n.pending[id].rejected
    ensures var n := Admit(s, input, id, code, now);
            n.authorized == s.authorized && n.table == s.table && id in n.history && n.history == s.history[id := n.history[id]] &&
            n.history[id].requestId == id && n.history[id].code == code && n.history[id].nodeId == input.node.id &&
            n.history[id].status == 100 && n.history[id].createdAt == now && n.history[id].expiresAt == now + 10 * MINUTE
  {
  }

  // ----- decisions -----

  /** An approval names the handshake's own key for its node, whatever was authorized before. */
  ghost predicate Approves(s: State, n: State, id: string, now: Time)
    requires id in s.pending
  {
    && n.pending == s.pending[id := s.pending[id].(approved := true)]
    && n.authorized == s.authorized[s.pending[id].node.id := s.pending[id].key]
    && n.table == s.table && Told(s.history, n.history, id, 200, ReasonOf(s.history, id), now)
  }

  /** How an approval must end on a swept state, its writes succeeding. */
  lemma ApproveMeans(s: State, found: Option<string>, replace: bool, now: Time)
    requires found.Some? ==> found.value in s.pending
    ensures var n, status := Approve(s, found, replace, now), ApproveStatus(s, found, replace);
            if found == None then status == 404 && n == s
            else
              var h := s.pending[found.value];
              if h.rejected then status == 409 && n == s
              else if h.node.id in s.authorized && s.authorized[h.node.id] != h.key && !replace then status == 409 && n == s
              else status == 200 && if h.approved then n == s else Approves(s, n, found.value, now)
  {
  }

  /** A rejection marks the handshake and tells the reason; an approved one cannot be rejected. */
  lemma RejectMeans(s: State, found: Option<string>, reason: string, now: Time)
    requires found.Some? ==> found.value in s.pending
    ensures var n, status := Reject(s, found, reason, now), RejectStatus(s, found);
            if found == None then status == 404 && n == s
            else if s.pending[found.value].approved then status == 409 && n == s
            else
              status == 200 && n.pending == s.pending[found.value := s.pending[found.value].(rejected := true)] &&
              n.authorized == s.authorized && n.table == s.table &&
              Told(s.history, n.history, found.value, 403, reason, now)
  {
  }

  // ----- completion and revocation -----

  /** A closed handshake is gone and its history says so; an open one and its history are as they were. */
  ghost predicate ClosedOr(s: State, n: State, id: string, closes: bool, status: int, now: Time) {
    && (id in n.pending <==> id in s.pending && !closes)
    && (id in n.pending ==> n.pending[id] == s.pending[id])
    && (if closes then id in n.history && n.history[id].status == status && n.history[id].handledAt == now
        else (id in n.history <==> id in s.history) && (id in s.history ==> n.history[id] == s.history[id]))
  }

  /** A heartbeat completes exactly the approved handshakes of its node that carry the authorized key. */
  lemma HeartbeatCompletes(s: State, n: Node, now: Time, id: string)
    requires n.id in s.authorized
    ensures var after := Register(s, n, now);
            after.authorized == s.authorized && after.table.nodes == s.table.nodes[n.id := n] &&
            ClosedOr(s, after, id,
                     id in s.pending && s.pending[id].node.id == n.id && s.pending[id].approved &&
                     s.pending[id].key == s.authorized[n.id], 201, now)
  {
  }

  /** A revocation takes the key, the active node and exactly the handshakes of the node. */
  lemma RevokeMeans(s: State, node: string, now: Time, id: string)
    requires node in s.authorized
    ensures var after := Revoke(s, node, now);
            after.authorized == s.authorized - {node} && after.table.nodes == s.table.nodes - {node} &&
            ClosedOr(s, after, id, id in s.pending && s.pending[id].node.id == node, 403, now)
  {
  }
}
