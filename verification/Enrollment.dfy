/**
 The enrollment state of the coordinator and what one critical section of
 internal/app/coordinator_enrollment.go, of the enrollment parts of cleanupLocked and of the
 completion in updateNode does to it.
 */
module Enrollment {
  import opened Prelude
  import opened Topology
  import NodeTable

  const LIFETIME: int := 10 * MINUTE
  const MAX_PENDING: nat := 1024
  const MAX_PER_SOURCE: nat := 10
  const MAX_HISTORY: nat := 10000
  const ATTEMPTS: nat := 32
  const MAX_REASON: nat := 512

  datatype Handshake = Handshake(
    code: string, node: Node, key: string, source: string, expiresAt: Time, approved: bool, rejected: bool)

  /** A missing history entry reads as ZERO_RECORD. */
  datatype Record = Record(
    requestId: string, code: string, nodeId: string, status: int, reason: string,
    createdAt: Time, expiresAt: Time, handledAt: Time)

  const ZERO_RECORD := Record("", "", "", 0, "", NodeTable.ZERO_TIME, NodeTable.ZERO_TIME, NodeTable.ZERO_TIME)

  type Handshakes = map<string, Handshake>
  type History = map<string, Record>

  datatype State = State(pending: Handshakes, history: History, authorized: map<string, string>, table: NodeTable.Table)

  const EMPTY := State(map[], map[], map[], NodeTable.EMPTY)

  function RecordOf(history: History, id: string): Record {
    if id in history then history[id] else ZERO_RECORD
  }

  // ----- the sweep -----

  predicate Overdue(h: Handshake, now: Time) {
    h.expiresAt < now
  }

  predicate Open(record: Record) {
    record.status == 100 || record.status == 200
  }

  function Keep(pending: Handshakes, now: Time): Handshakes {
    map id | id in pending && !Overdue(pending[id], now) :: pending[id]
  }

  predicate Lapses(pending: Handshakes, history: History, id: string, now: Time) {
    id in pending && Overdue(pending[id], now) && id in history && Open(history[id])
  }

  function Lapsed(pending: Handshakes, history: History, now: Time): History {
    map id | id in history ::
      if Lapses(pending, history, id, now) then history[id].(status := 410, handledAt := now) else history[id]
  }

  /** The surplus entries created earliest; ties fall anyhow. */
  ghost predicate IsSurplus(history: History, victims: set<string>) {
    && victims <= history.Keys
    && |victims| == (if |history| > MAX_HISTORY then |history| - MAX_HISTORY else 0)
    && (forall v, k :: v in victims && k in history && k !in victims ==> history[v].createdAt <= history[k].createdAt)
  }

  /** The source deletes by the ID stored in the entry. */
  ghost function Trimmed(history: History, victims: set<string>): History {
    map id | id in history && !(exists v :: v in victims && v in history && history[v].requestId == id) :: history[id]
  }

  ghost predicate SweepEnabled(s: State, order: seq<string>, victims: set<string>, now: Time) {
    IsOrder(order, s.table.nodes.Keys) && IsSurplus(Lapsed(s.pending, s.history, now), victims)
  }

  ghost function Sweep(s: State, order: seq<string>, victims: set<string>, now: Time): State {
    State(Keep(s.pending, now), Trimmed(Lapsed(s.pending, s.history, now), victims), s.authorized,
          NodeTable.Sweep(s.table, order, now))
  }

  // ----- requests -----

  datatype Input = Input(node: Node, key: string, source: string)

  /** The refusal of a request before any state is touched, in the source's order; None to go on. */
  function EarlyRefusal(network: string, input: Input, keyOk: bool, secretOk: bool): Option<int> {
    if input.node.id == "" || input.node.name == "" || input.node.network != network then Some(403)
    else if !keyOk then Some(400)
    else if !secretOk then Some(500)
    else None
  }

  function FromSource(pending: Handshakes, source: string): set<string> {
    set id | id in pending && pending[id].source == source
  }

  /** A draw of the random source; None when it fails. The first 32 draws are tried. */
  predicate Tried(draws: seq<Option<string>>, k: nat) {
    k < |draws| && k < ATTEMPTS && draws[k].Some?
  }

  ghost predicate CodeTaken(pending: Handshakes, code: string) {
    exists id :: id in pending && pending[id].code == code
  }

  /** The first `k` draws came and were in use. */
  ghost predicate AllTaken(draws: seq<Option<string>>, pending: Handshakes, k: nat) {
    k <= |draws| && forall j: nat :: j < k ==> draws[j].Some? && CodeTaken(pending, draws[j].value)
  }

  /** The draws end, or the attempts do, at `k`. */
  predicate EndsAt(draws: seq<Option<string>>, k: nat) {
    k == ATTEMPTS || k == |draws| || (k < |draws| && draws[k] == None)
  }

  /** The first draw that no pending handshake uses, if it comes in time. */
  ghost predicate IsAllocated(draws: seq<Option<string>>, pending: Handshakes, result: Option<string>) {
    if result.Some? then
      !CodeTaken(pending, result.value) &&
      exists k: nat :: Tried(draws, k) && draws[k] == result && AllTaken(draws, pending, k)
    else
      exists k: nat :: EndsAt(draws, k) && AllTaken(draws, pending, k)
  }

  predicate UpstreamOk(table: NodeTable.Table, n: Node) {
    n.role != Subnode || NodeTable.UpstreamActive(table, n)
  }

  /** A request for which an ID and a code are drawn. */
  predicate Drawn(s: State, input: Input) {
    UpstreamOk(s.table, input.node) && |s.pending| < MAX_PENDING && |FromSource(s.pending, input.source)| < MAX_PER_SOURCE
  }

  /** What a swept state answers; 201 once an ID and a code have been allocated. */
  function RequestStatus(s: State, input: Input, id: Option<string>, code: Option<string>): int {
    if !UpstreamOk(s.table, input.node) then 400
    else if |s.pending| >= MAX_PENDING then 503
    else if |FromSource(s.pending, input.source)| >= MAX_PER_SOURCE then 429
    else if id == None || code == None then 503
    else 201
  }

  function Admit(s: State, input: Input, id: string, code: string, now: Time): State {
    s.(pending := s.pending[id := Handshake(code, input.node, input.key, input.source, now + LIFETIME, false, false)],
       history := s.history[id := Record(id, code, input.node.id, 100, "", now, now + LIFETIME, NodeTable.ZERO_TIME)])
  }

  // ----- decisions -----

  /** The handshake a search by device code ends at. */
  ghost predicate IsFound(pending: Handshakes, code: string, found: Option<string>) {
    if found.Some? then found.value in pending && pending[found.value].code == code
    else !CodeTaken(pending, code)
  }

  function ApproveStatus(s: State, found: Option<string>, replace: bool): int {
    if found == None || found.value !in s.pending then 404
    else
      var h := s.pending[found.value];
      if h.rejected then 409
      else if h.node.id in s.authorized && s.authorized[h.node.id] != h.key && !replace then 409
      else 200
  }

  function Approve(s: State, found: Option<string>, replace: bool, now: Time): State {
    if ApproveStatus(s, found, replace) != 200 || s.pending[found.value].approved then s
    else
      var id := found.value;
      var h := s.pending[id];
      s.(pending := s.pending[id := h.(approved := true)],
         authorized := s.authorized[h.node.id := h.key],
         history := s.history[id := RecordOf(s.history, id).(status := 200, handledAt := now)])
  }

  function RejectStatus(s: State, found: Option<string>): int {
    if found == None || found.value !in s.pending then 404
    else if s.pending[found.value].approved then 409
    else 200
  }

  function Reject(s: State, found: Option<string>, reason: string, now: Time): State {
    if RejectStatus(s, found) != 200 then s
    else
      var id := found.value;
      s.(pending := s.pending[id := s.pending[id].(rejected := true)],
         history := s.history[id := RecordOf(s.history, id).(status := 403, reason := reason, handledAt := now)])
  }

  // ----- completion and revocation close handshakes of one node -----

  function Without(pending: Handshakes, ids: set<string>): Handshakes {
    map id | id in pending && id !in ids :: pending[id]
  }

  function Marked(history: History, ids: set<string>, status: int, now: Time): History {
    map id | id in history.Keys + ids ::
      if id in ids then RecordOf(history, id).(status := status, handledAt := now) else history[id]
  }

  function Completes(pending: Handshakes, node: string, key: string): set<string> {
    set id | id in pending && pending[id].node.id == node && pending[id].approved && pending[id].key == key
  }

  function Complete(s: State, node: string, now: Time): State
    requires node in s.authorized
  {
    var ids := Completes(s.pending, node, s.authorized[node]);
    s.(pending := Without(s.pending, ids), history := Marked(s.history, ids, 201, now))
  }

  /** An accepted heartbeat: the node is stored, its enrollment completed, and everything swept. */
  function Register(s: State, n: Node, now: Time): State
    requires n.id in s.authorized
  {
    Complete(s.(table := NodeTable.Register(s.table, n, now)), n.id, now)
  }

  function HandshakesOf(pending: Handshakes, node: string): set<string> {
    set id | id in pending && pending[id].node.id == node
  }

  function Revoke(s: State, node: string, now: Time): State {
    if node !in s.authorized then s
    else
      var ids := HandshakesOf(s.pending, node);
      State(Without(s.pending, ids), Marked(s.history, ids, 403, now), s.authorized - {node},
            s.table.(nodes := s.table.nodes - {node}))
  }

  // ----- the invariant -----

  function FlagStatus(h: Handshake): int {
    if h.approved then 200 else if h.rejected then 403 else 100
  }

  ghost predicate CodesDistinct(pending: Handshakes) {
    forall a, b :: a in pending && b in pending && pending[a].code == pending[b].code ==> a == b
  }

  ghost predicate FlagsOk(pending: Handshakes) {
    forall id :: id in pending ==> id != "" && pending[id].code != "" && !(pending[id].approved && pending[id].rejected)
  }

  /** A retained entry of a pending handshake says what its flags say. */
  ghost predicate HistoryAgrees(pending: Handshakes, history: History) {
    forall id :: id in pending && id in history ==> history[id].status == FlagStatus(pending[id])
  }

  ghost predicate HistoryIds(history: History) {
    forall id :: id in history ==> id != "" && (history[id].requestId == id || history[id].requestId == "")
  }

  ghost predicate WithinLimits(pending: Handshakes) {
    |pending| <= MAX_PENDING && forall source :: |FromSource(pending, source)| <= MAX_PER_SOURCE
  }

  ghost predicate ActiveAuthorized(s: State) {
    s.table.nodes.Keys <= s.authorized.Keys
  }

  ghost predicate ApprovedAuthorized(s: State) {
    forall id :: id in s.pending && s.pending[id].approved ==> s.pending[id].node.id in s.authorized
  }

  ghost predicate StateOk(s: State) {
    && CodesDistinct(s.pending) && FlagsOk(s.pending) && HistoryAgrees(s.pending, s.history) && HistoryIds(s.history)
    && WithinLimits(s.pending) && ActiveAuthorized(s) && ApprovedAuthorized(s)
  }

  // ----- every operation keeps it -----

  lemma FewerPending(pending: Handshakes, fewer: Handshakes)
    requires WithinLimits(pending) && fewer.Keys <= pending.Keys
    requires forall id :: id in fewer ==> fewer[id].source == pending[id].source
    ensures WithinLimits(fewer)
  {
    SubsetSize(fewer.Keys, pending.Keys);
    assert |fewer| == |fewer.Keys| && |pending| == |pending.Keys|;
    forall source ensures |FromSource(fewer, source)| <= MAX_PER_SOURCE {
      SubsetSize(FromSource(fewer, source), FromSource(pending, source));
    }
  }

  lemma NodesOnlyLeave(t: NodeTable.Table, order: seq<string>, now: Time)
    requires IsOrder(order, t.nodes.Keys)
    ensures NodeTable.Sweep(t, order, now).nodes.Keys <= t.nodes.Keys
  {
    NodeTable.SweepEffect(t, order, now);
  }

  lemma SweepOk(s: State, order: seq<string>, victims: set<string>, now: Time)
    requires StateOk(s) && SweepEnabled(s, order, victims, now)
    ensures StateOk(Sweep(s, order, victims, now))
  {
    NodesOnlyLeave(s.table, order, now);
    FewerPending(s.pending, Keep(s.pending, now));
  }

  lemma MoreFrom(pending: Handshakes, id: string, h: Handshake, source: string)
    requires id !in pending
    ensures |FromSource(pending[id := h], source)| == |FromSource(pending, source)| + if source == h.source then 1 else 0
  {
    assert FromSource(pending[id := h], source) == FromSource(pending, source) + if source == h.source then {id} else {};
  }

  lemma MorePending(pending: Handshakes, id: string, h: Handshake)
    requires WithinLimits(pending) && id !in pending && |pending| < MAX_PENDING
    requires |FromSource(pending, h.source)| < MAX_PER_SOURCE
    ensures WithinLimits(pending[id := h])
  {
    var more := pending[id := h];
    assert more.Keys == pending.Keys + {id};
    assert |more| == |more.Keys| && |pending| == |pending.Keys|;
    forall source ensures |FromSource(more, source)| <= MAX_PER_SOURCE {
      MoreFrom(pending, id, h, source);
    }
  }

  lemma AdmitOk(s: State, input: Input, id: string, code: string, now: Time)
    requires StateOk(s) && RequestStatus(s, input, Some(id), Some(code)) == 201
    requires id != "" && id !in s.pending && code != "" && !CodeTaken(s.pending, code)
    ensures StateOk(Admit(s, input, id, code, now))
  {
    MorePending(s.pending, id, Admit(s, input, id, code, now).pending[id]);
  }

  /** What the handshakes and their history keep by themselves. */
  ghost predicate BooksOk(pending: Handshakes, history: History) {
    CodesDistinct(pending) && FlagsOk(pending) && HistoryAgrees(pending, history) && HistoryIds(history) && WithinLimits(pending)
  }

  lemma UpdateBooks(pending: Handshakes, history: History, id: string, h: Handshake, record: Record)
    requires BooksOk(pending, history) && id in pending
    requires h.code == pending[id].code && h.source == pending[id].source && !(h.approved && h.rejected)
    requires record.requestId == RecordOf(history, id).requestId && record.status == FlagStatus(h)
    ensures BooksOk(pending[id := h], history[id := record])
  {
    UpdateLimits(pending, id, h);
    UpdateCodes(pending, id, h);
    assert HistoryAgrees(pending[id := h], history[id := record]);
  }

  lemma UpdateLimits(pending: Handshakes, id: string, h: Handshake)
    requires WithinLimits(pending) && id in pending && h.source == pending[id].source
    ensures WithinLimits(pending[id := h])
  {
    FewerPending(pending, pending[id := h]);
  }

  lemma UpdateCodes(pending: Handshakes, id: string, h: Handshake)
    requires CodesDistinct(pending) && FlagsOk(pending) && id in pending
    requires h.code == pending[id].code && !(h.approved && h.rejected)
    ensures CodesDistinct(pending[id := h]) && FlagsOk(pending[id := h])
  {
  }

  lemma CloseBooks(pending: Handshakes, history: History, ids: set<string>, status: int, now: Time)
    requires BooksOk(pending, history) && ids <= pending.Keys
    ensures BooksOk(Without(pending, ids), Marked(history, ids, status, now))
  {
    FewerPending(pending, Without(pending, ids));
  }

  lemma ApproveOk(s: State, found: Option<string>, replace: bool, now: Time)
    requires StateOk(s)
    ensures StateOk(Approve(s, found, replace, now))
  {
    if ApproveStatus(s, found, replace) == 200 && !s.pending[found.value].approved {
      var id := found.value;
      UpdateBooks(s.pending, s.history, id, s.pending[id].(approved := true),
                  RecordOf(s.history, id).(status := 200, handledAt := now));
    }
  }

  lemma RejectOk(s: State, found: Option<string>, reason: string, now: Time)
    requires StateOk(s)
    ensures StateOk(Reject(s, found, reason, now))
  {
    if RejectStatus(s, found) == 200 {
      var id := found.value;
      UpdateBooks(s.pending, s.history, id, s.pending[id].(rejected := true),
                  RecordOf(s.history, id).(status := 403, reason := reason, handledAt := now));
    }
  }

  lemma RegisterOk(s: State, n: Node, now: Time)
    requires StateOk(s) && n.id in s.authorized
    ensures StateOk(Register(s, n, now))
  {
    CloseBooks(s.pending, s.history, Completes(s.pending, n.id, s.authorized[n.id]), 201, now);
  }

  lemma RevokeOk(s: State, node: string, now: Time)
    requires StateOk(s)
    ensures StateOk(Revoke(s, node, now))
  {
    CloseBooks(s.pending, s.history, HandshakesOf(s.pending, node), 403, now);
  }

  /** A device code names at most one handshake, so a search ends at the same one in any order. */
  lemma SearchUnique(pending: Handshakes, code: string, a: Option<string>, b: Option<string>)
    requires CodesDistinct(pending) && IsFound(pending, code, a) && IsFound(pending, code, b)
    ensures a == b && forall id :: a == Some(id) <==> id in pending && pending[id].code == code
  {
  }

  // ----- the bound on history -----

  /**
   Trimming cuts the history to its limit exactly when every surplus entry carries its own ID. An
   entry that was written back after it had been trimmed has none, and stays.
   */
  lemma TrimBound(history: History, victims: set<string>)
    requires HistoryIds(history) && IsSurplus(history, victims)
    ensures |Trimmed(history, victims)| <= MAX_HISTORY <==> forall v :: v in victims ==> history[v].requestId == v
    ensures (forall v :: v in victims ==> history[v].requestId == v) && |history| >= MAX_HISTORY ==>
              |Trimmed(history, victims)| == MAX_HISTORY
  {
    var own := set v | v in victims && history[v].requestId == v;
    TrimmedKeys(history, victims, own);
    assert |history.Keys - own| == |history| - |own|;
    SubsetSize(own, victims);
    if |own| == |victims| {
      SameSize(own, victims);
    }
    if forall v :: v in victims ==> history[v].requestId == v {
      assert own == victims;
    }
  }

  /** An entry carries its own ID and a creation time, or it was written back after being trimmed and has neither. */
  ghost predicate AgesOk(history: History) {
    forall id :: id in history ==>
      if history[id].requestId == id then history[id].createdAt > NodeTable.ZERO_TIME
      else history[id].requestId == "" && history[id].createdAt == NodeTable.ZERO_TIME
  }

  /** Whoever decides, completes or revokes a handshake whose entry was trimmed writes back one without ID or time. */
  lemma WrittenBackWithoutId(s: State, id: string, replace: bool, reason: string, node: string, now: Time)
    requires StateOk(s) && id in s.pending && id !in s.history
    ensures var bare := (h: History) => id in h && h[id].requestId == "" && h[id].createdAt == NodeTable.ZERO_TIME;
            (ApproveStatus(s, Some(id), replace) == 200 && !s.pending[id].approved ==> bare(Approve(s, Some(id), replace, now).history)) &&
            (RejectStatus(s, Some(id)) == 200 ==> bare(Reject(s, Some(id), reason, now).history)) &&
            (node in s.authorized && id in Completes(s.pending, node, s.authorized[node]) ==> bare(Complete(s, node, now).history)) &&
            (node in s.authorized && s.pending[id].node.id == node ==> bare(Revoke(s, node, now).history))
  {
  }

  /** Hence trimming meets its limit exactly if the history is within it already or has no such entry. */
  lemma TrimMeetsLimit(history: History, victims: set<string>)
    requires HistoryIds(history) && AgesOk(history) && IsSurplus(history, victims)
    ensures |Trimmed(history, victims)| <= MAX_HISTORY <==>
            |history| <= MAX_HISTORY || forall id :: id in history ==> history[id].requestId == id
  {
    TrimBound(history, victims);
    if |history| > MAX_HISTORY && forall v :: v in victims ==> history[v].requestId == v {
      var v :| v in victims;
      forall id | id in history ensures history[id].requestId == id {
        assert id in victims || history[v].createdAt <= history[id].createdAt;
      }
    }
  }

  /** A full history and one more entry, which has no ID. */
  function Name(n: nat): string {
    seq(n, _ => 'a')
  }

  function Filled(n: nat): History {
    if n == 0 then map[]
    else
      Filled(n - 1)[Name(n) := if n == 1 then ZERO_RECORD.(status := 200) else ZERO_RECORD.(requestId := Name(n), status := 201, createdAt := 1)]
  }

  lemma {:induction false} FilledOk(n: nat)
    ensures |Filled(n)| == n && HistoryIds(Filled(n)) && AgesOk(Filled(n)) && (n > 0 ==> Name(1) in Filled(n))
    ensures forall id :: id in Filled(n) ==> 0 < |id| <= n && id == Name(|id|)
    ensures n > 0 ==> Filled(n)[Name(1)] == ZERO_RECORD.(status := 200)
  {
    if n > 0 {
      FilledOk(n - 1);
      assert Name(n) !in Filled(n - 1);
      assert n > 1 ==> Name(n) != Name(1) && |Name(n)| == n;
    }
  }

  /** Trimming that history takes the entry without an ID and so deletes nothing. */
  lemma TrimCanFail()
    ensures exists history, victims :: HistoryIds(history) && AgesOk(history) && IsSurplus(history, victims) &&
              |Trimmed(history, victims)| > MAX_HISTORY
  {
    var history, victims := Filled(MAX_HISTORY + 1), {Name(1)};
    FilledOk(MAX_HISTORY + 1);
    assert IsSurplus(history, victims);
    TrimMeetsLimit(history, victims);
    assert |Name(1)| == 1 && history[Name(1)].requestId != Name(1);
  }

  lemma TrimmedKeys(history: History, victims: set<string>, own: set<string>)
    requires HistoryIds(history) && victims <= history.Keys
    requires own == set v | v in victims && history[v].requestId == v
    ensures Trimmed(history, victims).Keys == history.Keys - own
    ensures |Trimmed(history, victims)| == |history.Keys - own|
  {
    forall id | id in history
      ensures (exists v :: v in victims && v in history && history[v].requestId == id) <==> id in own
    {
      if id in own {
        assert history[id].requestId == id;
      }
    }
    assert |Trimmed(history, victims)| == |Trimmed(history, victims).Keys|;
  }

  lemma SameSize(small: set<string>, large: set<string>)
    requires small <= large && |small| == |large|
    ensures small == large
  {
    assert |large - small| == 0;
  }
}
