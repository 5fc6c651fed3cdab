/**
 The enrollment handlers of internal/app/coordinator_enrollment.go as they change the registry
 under its mutex. The node loop inside each sweep is that of NodeTableServer.
 */
module EnrollmentServer {
  import opened Prelude
  import opened Topology
  import opened Sorting
  import NodeTable
  import opened Enrollment

  /** The keys of a map in the order a `range` happens to visit them. */
  method AnyOrder(keys: set<string>) returns (order: seq<string>)
    ensures IsOrder(order, keys)
  {
    order := [];
    var remaining := keys;
    while remaining != {}
      invariant remaining <= keys && IsOrder(order, keys - remaining)
      decreases |remaining|
    {
      var key :| key in remaining;
      remaining := remaining - {key};
      OrderVisit(keys, remaining, order, key);
      order := order + [key];
    }
    assert keys - remaining == keys;
  }

  /** Entries ordered by creation time, oldest first. */
  ghost predicate ByAge(history: History, ids: seq<string>) {
    (forall i :: 0 <= i < |ids| ==> ids[i] in history) &&
    forall i, j :: 0 <= i < j < |ids| ==> history[ids[i]].createdAt <= history[ids[j]].createdAt
  }

  /** sort.Slice by creation time. */
  method SortByAge(history: History, ids: seq<string>) returns (sorted: seq<string>)
    requires forall i :: 0 <= i < |ids| ==> ids[i] in history
    ensures ByAge(history, sorted) && multiset(sorted) == multiset(ids)
  {
    var older := (a: string, b: string) => RecordOf(history, a).createdAt < RecordOf(history, b).createdAt;
    sorted := Sort(ids, older);
    SameElements(sorted, ids);
    forall i | 0 <= i < |sorted| ensures sorted[i] in history {
      assert sorted[i] in ids;
    }
    forall i, j | 0 <= i < j < |sorted| ensures history[sorted[i]].createdAt <= history[sorted[j]].createdAt {
      assert !older(sorted[j], sorted[i]);
    }
  }

  lemma FirstAreSurplus(history: History, order: seq<string>, sorted: seq<string>, n: nat)
    requires IsOrder(order, history.Keys) && ByAge(history, sorted) && multiset(sorted) == multiset(order)
    requires n <= |sorted|
    ensures |sorted| == |history|
    ensures Elements(sorted[..n]) <= history.Keys && |Elements(sorted[..n])| == n
    ensures forall v, k :: v in Elements(sorted[..n]) && k in history && k !in Elements(sorted[..n]) ==>
              history[v].createdAt <= history[k].createdAt
  {
    DistinctKept(order, sorted, (id: string) => id);
    assert forall i, j :: 0 <= i < j < |sorted| ==> sorted[i] != sorted[j];
    ElementsSize(sorted[..n]);
    ElementsSize(order);
    assert Elements(order) == history.Keys;
    assert |sorted| == |multiset(sorted)| == |multiset(order)| == |order|;
    forall v, k | v in Elements(sorted[..n]) && k in history && k !in Elements(sorted[..n])
      ensures history[v].createdAt <= history[k].createdAt
    {
      var i :| 0 <= i < n && sorted[i] == v;
      assert k in multiset(order);
      assert k in multiset(sorted);
      var j :| 0 <= j < |sorted| && sorted[j] == k;
      assert forall m :: 0 <= m < n ==> sorted[..n][m] == sorted[m];
    }
  }

  lemma {:induction false} ElementsSize(a: seq<string>)
    requires forall i, j :: 0 <= i < j < |a| ==> a[i] != a[j]
    ensures |Elements(a)| == |a|
  {
    if a != [] {
      ElementsSize(a[..|a| - 1]);
      OrderPrefix(a);
    } else {
      assert Elements(a) == {};
    }
  }

  class Registry {
    const network: string
    var pending: Handshakes
    var history: History
    var authorized: map<string, string>
    var table: NodeTable.Table

    ghost function View(): State
      reads this
    {
      State(pending, history, authorized, table)
    }

    ghost predicate Valid()
      reads this
    {
      StateOk(View())
    }

    constructor (network: string)
      ensures Valid() && View() == EMPTY && this.network == network
    {
      this.network := network;
      pending, history, authorized, table := map[], map[], map[], NodeTable.EMPTY;
    }

    // ----- the sweep -----

    method ExpireHandshakes(now: Time)
      modifies this`pending, this`history
      ensures pending == Keep(old(pending), now) && history == Lapsed(old(pending), old(history), now)
    {
      ghost var was, told, done: set<string> := pending, history, {};
      var remaining := pending.Keys;
      SweptSoFar(was, told, now);
      while remaining != {}
        invariant remaining <= was.Keys && done == was.Keys - remaining
        invariant pending == KeptSo(was, done, now) && history == LapsedSo(was, told, done, now)
        decreases |remaining|
      {
        var id :| id in remaining;
        ExpireOne(was, told, done, id, now);
        remaining := remaining - {id};
        done := done + {id};
        ExpireHandshake(id, now);
      }
      assert done == was.Keys;
    }

    method ExpireHandshake(id: string, now: Time)
      requires id in pending
      modifies this`pending, this`history
      ensures pending == if Overdue(old(pending[id]), now) then old(pending) - {id} else old(pending)
      ensures history == if Lapses(old(pending), old(history), id, now)
                         then old(history)[id := old(history)[id].(status := 410, handledAt := now)] else old(history)
    {
      if pending[id].expiresAt < now {
        pending := pending - {id};
        if id in history && (history[id].status == 100 || history[id].status == 200) {
          history := history[id := history[id].(status := 410, handledAt := now)];
        }
      }
    }

    method TrimHistory() returns (ghost victims: set<string>)
      modifies this`history
      ensures IsSurplus(old(history), victims) && history == Trimmed(old(history), victims)
    {
      victims := {};
      if |history| > MAX_HISTORY {
        var order := AnyOrder(history.Keys);
        var sorted := SortByAge(history, order);
        FirstAreSurplus(history, order, sorted, 0);
        FirstAreSurplus(history, order, sorted, |history| - MAX_HISTORY);
        victims := Elements(sorted[..|history| - MAX_HISTORY]);
        DeleteOldest(sorted, |history| - MAX_HISTORY);
      } else {
        assert Trimmed(history, {}) == history;
      }
    }

    method DeleteOldest(sorted: seq<string>, n: nat)
      requires n <= |sorted| && forall i :: 0 <= i < |sorted| ==> sorted[i] in history
      modifies this`history
      ensures history == Trimmed(old(history), Elements(sorted[..n]))
    {
      var items := history;
      assert Trimmed(items, Elements(sorted[..0])) == items;
      for i := 0 to n
        invariant history == Trimmed(items, Elements(sorted[..i]))
      {
        TrimOne(items, sorted[..i], sorted[i]);
        assert sorted[..i + 1] == sorted[..i] + [sorted[i]];
        history := history - {items[sorted[i]].requestId};
      }
    }

    /** The parts of cleanupLocked that touch enrollment, and the node loop. */
    method Cleanup(now: Time) returns (ghost order: seq<string>, ghost victims: set<string>)
      requires Valid()
      modifies this`pending, this`history, this`table
      ensures Valid() && SweepEnabled(old(View()), order, victims, now)
      ensures View() == Sweep(old(View()), order, victims, now)
    {
      ghost var before := View();
      ExpireHandshakes(now);
      var visited := AnyOrder(table.nodes.Keys);
      table := NodeTable.Sweep(table, visited, now);
      victims := TrimHistory();
      order := visited;
      SweepOk(before, order, victims, now);
      SweptParts(before, View(), order, victims, now);
    }

    // ----- requests -----

    method IsTaken(code: string) returns (taken: bool)
      ensures taken == CodeTaken(pending, code)
    {
      var remaining := pending.Keys;
      while remaining != {}
        invariant remaining <= pending.Keys
        invariant forall id :: id in pending && id !in remaining ==> pending[id].code != code
        decreases |remaining|
      {
        var id :| id in remaining;
        remaining := remaining - {id};
        if pending[id].code == code {
          return true;
        }
      }
      taken := false;
    }

    /** allocateDeviceCodeLocked over the draws of the random source. */
    method AllocateDeviceCode(draws: seq<Option<string>>) returns (code: Option<string>)
      ensures IsAllocated(draws, pending, code)
    {
      var attempt: nat := 0;
      while attempt < ATTEMPTS && attempt < |draws|
        invariant attempt <= ATTEMPTS && AllTaken(draws, pending, attempt)
      {
        if draws[attempt] == None {
          assert EndsAt(draws, attempt);
          return None;
        }
        var taken := IsTaken(draws[attempt].value);
        if !taken {
          assert Tried(draws, attempt);
          return draws[attempt];
        }
        attempt := attempt + 1;
      }
      assert EndsAt(draws, attempt);
      code := None;
    }

    /** The same for allocateRequestIDLocked, whose IDs must be new to both maps. */
    method AllocateRequestId(draws: seq<Option<string>>) returns (id: Option<string>)
      ensures IsNewId(draws, pending, history, id)
    {
      var attempt: nat := 0;
      while attempt < ATTEMPTS && attempt < |draws|
        invariant attempt <= ATTEMPTS && AllKnown(draws, pending, history, attempt)
      {
        if draws[attempt] == None {
          assert EndsAt(draws, attempt);
          return None;
        }
        if draws[attempt].value !in pending && draws[attempt].value !in history {
          assert Tried(draws, attempt);
          return draws[attempt];
        }
        attempt := attempt + 1;
      }
      assert EndsAt(draws, attempt);
      id := None;
    }

    method CountFrom(source: string) returns (count: nat)
      ensures count == |FromSource(pending, source)|
    {
      count := 0;
      var remaining := pending.Keys;
      ghost var seen: set<string> := {};
      while remaining != {}
        invariant remaining <= pending.Keys
        invariant forall id :: id in seen <==> id !in remaining && id in FromSource(pending, source)
        invariant count == |seen|
        decreases |remaining|
      {
        var id :| id in remaining;
        remaining := remaining - {id};
        if pending[id].source == source {
          count := count + 1;
          seen := seen + {id};
        }
      }
      assert seen == FromSource(pending, source);
    }

    /** POST /v1/enroll/request: the checks, the sweep, and then RequestSwept. `ids` and `codes` are what the random source yields. */
    method RequestEnrollment(input: Input, keyOk: bool, secretOk: bool, ids: seq<Option<string>>, codes: seq<Option<string>>,
                             now: Time, persisted: bool)
      returns (status: int, id: Option<string>, code: Option<string>, ghost order: seq<string>, ghost victims: set<string>)
      requires Valid() && Some("") !in ids && Some("") !in codes
      modifies this
      ensures Valid()
      ensures var refusal := EarlyRefusal(network, input, keyOk, secretOk);
              if refusal.Some? then status == refusal.value && View() == old(View()) && id == code == None
              else
                SweepEnabled(old(View()), order, victims, now) &&
                Requested(Sweep(old(View()), order, victims, now), input, ids, codes, id, code, now, persisted, View(), status)
    {
      id, code, order, victims := None, None, [], {};
      if input.node.id == "" || input.node.name == "" || input.node.network != network {
        return 403, None, None, [], {};
      }
      if !keyOk {
        return 400, None, None, [], {};
      }
      if !secretOk {
        return 500, None, None, [], {};
      }
      order, victims := Cleanup(now);
      status, id, code := RequestSwept(input, ids, codes, now, persisted);
    }

    method RequestSwept(input: Input, ids: seq<Option<string>>, codes: seq<Option<string>>, now: Time, persisted: bool)
      returns (status: int, id: Option<string>, code: Option<string>)
      requires Valid() && Some("") !in ids && Some("") !in codes
      modifies this`pending, this`history
      ensures Valid() && Requested(old(View()), input, ids, codes, id, code, now, persisted, View(), status)
    {
      id, code := None, None;
      var upstreamOk := CheckUpstream(input.node);
      if !upstreamOk {
        return 400, None, None;
      }
      if |pending| >= MAX_PENDING {
        return 503, None, None;
      }
      var count := CountFrom(input.source);
      if count >= MAX_PER_SOURCE {
        return 429, None, None;
      }
      id := AllocateRequestId(ids);
      if id == None {
        return 503, None, None;
      }
      code := AllocateDeviceCode(codes);
      if code == None {
        return 503, id, None;
      }
      AdmitOk(View(), input, id.value, code.value, now);
      pending := pending[id.value := Handshake(code.value, input.node, input.key, input.source, now + LIFETIME, false, false)];
      history := history[id.value :=
        Record(id.value, code.value, input.node.id, 100, "", now, now + LIFETIME, NodeTable.ZERO_TIME)];
      status := if persisted then 201 else 500;
    }

    method CheckUpstream(n: Node) returns (ok: bool)
      ensures ok == UpstreamOk(table, n)
    {
      if n.role != Subnode {
        return true;
      }
      if n.upstream !in table.nodes {
        return false;
      }
      var upstream := table.nodes[n.upstream];
      ok := upstream.role == Relay && upstream.segment == n.segment && upstream.network == n.network;
    }

    // ----- decisions -----

    method FindByCode(code: string) returns (found: Option<string>)
      ensures IsFound(pending, code, found)
    {
      var remaining := pending.Keys;
      while remaining != {}
        invariant remaining <= pending.Keys
        invariant forall id :: id in pending && id !in remaining ==> pending[id].code != code
        decreases |remaining|
      {
        var id :| id in remaining;
        remaining := remaining - {id};
        if pending[id].code == code {
          return Some(id);
        }
      }
      found := None;
    }

    /** POST /v1/admin/approve by an administrator; `code` has been normalised. */
    method ApproveHandshake(code: string, replace: bool, now: Time, persisted: bool)
      returns (status: int, ghost found: Option<string>, ghost order: seq<string>, ghost victims: set<string>)
      requires Valid()
      modifies this
      ensures Valid() && SweepEnabled(old(View()), order, victims, now)
      ensures var m := Sweep(old(View()), order, victims, now);
              IsFound(m.pending, code, found) && View() == Approve(m, found, replace, now) &&
              status == if View() != m && !persisted then 500 else ApproveStatus(m, found, replace)
    {
      order, victims := Cleanup(now);
      var id := FindByCode(code);
      found := id;
      ApproveOk(View(), id, replace, now);
      status := ApproveSwept(id, replace, now, persisted);
    }

    method ApproveSwept(found: Option<string>, replace: bool, now: Time, persisted: bool) returns (status: int)
      requires Valid() && (found.Some? ==> found.value in pending)
      modifies this`pending, this`authorized, this`history
      ensures View() == Approve(old(View()), found, replace, now)
      ensures status == if View() != old(View()) && !persisted then 500 else ApproveStatus(old(View()), found, replace)
    {
      if found == None {
        return 404;
      }
      var id := found.value;
      var h := pending[id];
      if h.rejected {
        return 409;
      }
      if h.node.id in authorized && authorized[h.node.id] != h.key && !replace {
        return 409;
      }
      status := 200;
      if !h.approved {
        pending := pending[id := h.(approved := true)];
        authorized := authorized[h.node.id := h.key];
        history := history[id := RecordOf(history, id).(status := 200, handledAt := now)];
        assert pending[id] != old(pending)[id];
        status := if persisted then 200 else 500;
      }
    }

    /** POST /v1/admin/reject by an administrator; `reason` has been trimmed. */
    method RejectHandshake(code: string, reason: string, now: Time, persisted: bool)
      returns (status: int, ghost found: Option<string>, ghost order: seq<string>, ghost victims: set<string>)
      requires Valid()
      modifies this
      ensures Valid()
      ensures ByteLength(reason) > MAX_REASON ==> status == 400 && View() == old(View())
      ensures ByteLength(reason) <= MAX_REASON ==>
                SweepEnabled(old(View()), order, victims, now) &&
                var m := Sweep(old(View()), order, victims, now);
                IsFound(m.pending, code, found) && View() == Reject(m, found, reason, now) &&
                status == if RejectStatus(m, found) == 200 && !persisted then 500 else RejectStatus(m, found)
    {
      found, order, victims := None, [], {};
      if ByteLength(reason) > MAX_REASON {
        return 400, None, [], {};
      }
      order, victims := Cleanup(now);
      var id := FindByCode(code);
      found := id;
      RejectOk(View(), id, reason, now);
      status := RejectSwept(id, reason, now, persisted);
    }

    method RejectSwept(found: Option<string>, reason: string, now: Time, persisted: bool) returns (status: int)
      requires found.Some? ==> found.value in pending
      modifies this`pending, this`history
      ensures View() == Reject(old(View()), found, reason, now)
      ensures status == if RejectStatus(old(View()), found) == 200 && !persisted then 500 else RejectStatus(old(View()), found)
    {
      if found == None {
        return 404;
      }
      var id := found.value;
      if pending[id].approved {
        return 409;
      }
      pending := pending[id := pending[id].(rejected := true)];
      history := history[id := RecordOf(history, id).(status := 403, reason := reason, handledAt := now)];
      status := if persisted then 200 else 500;
    }

    // ----- completion and revocation -----

    /** Delete the given handshakes and mark their history; `ids` is visited in any order. */
    method CloseHandshakes(ids: set<string>, status: int, now: Time)
      requires ids <= pending.Keys
      modifies this`pending, this`history
      ensures pending == Without(old(pending), ids) && history == Marked(old(history), ids, status, now)
    {
      ghost var was, told, closed: set<string> := pending, history, {};
      var remaining := ids;
      NoneClosed(was, told, status, now);
      while remaining != {}
        invariant closed !! remaining && closed + remaining == ids
        invariant ClosedSoFar(was, told, closed, status, now, pending, history)
        decreases |remaining|
      {
        var id :| id in remaining;
        CloseOne(was, told, closed, id, status, now, pending, history);
        remaining := remaining - {id};
        closed := closed + {id};
        CloseHandshake(id, status, now);
      }
      assert closed == ids;
    }

    method CloseHandshake(id: string, status: int, now: Time)
      modifies this`pending, this`history
      ensures pending == old(pending) - {id}
      ensures history == old(history)[id := RecordOf(old(history), id).(status := status, handledAt := now)]
    {
      pending := pending - {id};
      history := history[id := RecordOf(history, id).(status := status, handledAt := now)];
    }

    /** The completion loop of updateNode, for a node that has just been stored. */
    method CompleteEnrollment(node: string, now: Time)
      requires node in authorized
      modifies this`pending, this`history
      ensures View() == Complete(old(View()), node, now)
    {
      CloseHandshakes(set id | id in pending && pending[id].node.id == node && pending[id].approved &&
                                pending[id].key == authorized[node], 201, now);
    }

    /** The enrollment side of an accepted heartbeat of `n`. */
    method Heartbeat(n: Node, now: Time) returns (ghost order: seq<string>, ghost victims: set<string>)
      requires Valid() && n.id in authorized
      modifies this
      ensures Valid() && SweepEnabled(Register(old(View()), n, now), order, victims, now)
      ensures View() == Sweep(Register(old(View()), n, now), order, victims, now)
    {
      RegisterOk(View(), n, now);
      StoreAndComplete(n, now);
      order, victims := Cleanup(now);
    }

    method StoreAndComplete(n: Node, now: Time)
      requires n.id in authorized
      modifies this`pending, this`history, this`table
      ensures View() == Register(old(View()), n, now)
    {
      table := NodeTable.Register(table, n, now);
      CompleteEnrollment(n.id, now);
    }

    /** POST /v1/admin/revoke by an administrator. */
    method RevokeNode(node: string, blank: bool, now: Time, persisted: bool) returns (status: int)
      requires Valid()
      modifies this
      ensures Valid()
      ensures if blank || node !in old(authorized) then status == (if blank then 400 else 404) && View() == old(View())
              else View() == Revoke(old(View()), node, now) && status == (if persisted then 200 else 500)
    {
      if blank {
        return 400;
      }
      if node !in authorized {
        return 404;
      }
      RevokeOk(View(), node, now);
      CloseHandshakes(set id | id in pending && pending[id].node.id == node, 403, now);
      authorized := authorized - {node};
      table := table.(nodes := table.nodes - {node});
      status := if persisted then 200 else 500;
    }
  }

  lemma SweptParts(s: State, n: State, order: seq<string>, victims: set<string>, now: Time)
    requires n.pending == Keep(s.pending, now) && n.history == Trimmed(Lapsed(s.pending, s.history, now), victims)
    requires n.authorized == s.authorized && n.table == NodeTable.Sweep(s.table, order, now)
    ensures n == Sweep(s, order, victims, now)
  {
  }

  ghost predicate AllKnown(draws: seq<Option<string>>, pending: Handshakes, history: History, k: nat) {
    k <= |draws| && forall j: nat :: j < k ==> draws[j].Some? && (draws[j].value in pending || draws[j].value in history)
  }

  /** The first draw unknown to both maps, if it comes in time. */
  ghost predicate IsNewId(draws: seq<Option<string>>, pending: Handshakes, history: History, result: Option<string>) {
    if result.Some? then
      result.value !in pending && result.value !in history &&
      exists k: nat :: Tried(draws, k) && draws[k] == result && AllKnown(draws, pending, history, k)
    else
      exists k: nat :: EndsAt(draws, k) && AllKnown(draws, pending, history, k)
  }

  /** How a request ends on a swept state. */
  ghost predicate Requested(m: State, input: Input, ids: seq<Option<string>>, codes: seq<Option<string>>,
                            id: Option<string>, code: Option<string>, now: Time, persisted: bool, n: State, status: int) {
    && (if Drawn(m, input) then IsNewId(ids, m.pending, m.history, id) else id == None)
    && (if id.Some? then IsAllocated(codes, m.pending, code) else code == None)
    && if RequestStatus(m, input, id, code) != 201 then n == m && status == RequestStatus(m, input, id, code)
       else n == Admit(m, input, id.value, code.value, now) && status == (if persisted then 201 else 500)
  }

  /** The sweep when only `done` has been visited. */
  ghost function KeptSo(pending: Handshakes, done: set<string>, now: Time): Handshakes {
    map id | id in pending && !(id in done && Overdue(pending[id], now)) :: pending[id]
  }

  ghost function LapsedSo(pending: Handshakes, history: History, done: set<string>, now: Time): History {
    map id | id in history ::
      if id in done && Lapses(pending, history, id, now) then history[id].(status := 410, handledAt := now) else history[id]
  }

  lemma ExpireOne(pending: Handshakes, history: History, done: set<string>, id: string, now: Time)
    requires id in pending && id !in done
    ensures id in KeptSo(pending, done, now) && KeptSo(pending, done, now)[id] == pending[id]
    ensures id in LapsedSo(pending, history, done, now) <==> id in history
    ensures id in history ==> LapsedSo(pending, history, done, now)[id] == history[id]
    ensures KeptSo(pending, done + {id}, now) ==
            if Overdue(pending[id], now) then KeptSo(pending, done, now) - {id} else KeptSo(pending, done, now)
    ensures LapsedSo(pending, history, done + {id}, now) ==
            if Lapses(pending, history, id, now) then
              LapsedSo(pending, history, done, now)[id := history[id].(status := 410, handledAt := now)]
            else LapsedSo(pending, history, done, now)
  {
  }

  lemma SweptSoFar(pending: Handshakes, history: History, now: Time)
    ensures KeptSo(pending, {}, now) == pending && LapsedSo(pending, history, {}, now) == history
    ensures KeptSo(pending, pending.Keys, now) == Keep(pending, now)
    ensures LapsedSo(pending, history, pending.Keys, now) == Lapsed(pending, history, now)
  {
  }

  /** The handshakes in `closed` have been removed and marked, and nothing else. */
  ghost predicate ClosedSoFar(was: Handshakes, told: History, closed: set<string>, status: int, now: Time,
                              pending: Handshakes, history: History) {
    pending == Without(was, closed) && history == Marked(told, closed, status, now)
  }

  lemma NoneClosed(pending: Handshakes, history: History, status: int, now: Time)
    ensures ClosedSoFar(pending, history, {}, status, now, pending, history)
  {
  }

  lemma CloseOne(was: Handshakes, told: History, closed: set<string>, id: string, status: int, now: Time,
                 pending: Handshakes, history: History)
    requires id !in closed && ClosedSoFar(was, told, closed, status, now, pending, history)
    ensures ClosedSoFar(was, told, closed + {id}, status, now, pending - {id},
                        history[id := RecordOf(history, id).(status := status, handledAt := now)])
  {
  }

  lemma TrimOne(history: History, ids: seq<string>, id: string)
    requires id in history
    ensures Trimmed(history, Elements(ids + [id])) == Trimmed(history, Elements(ids)) - {history[id].requestId}
  {
    assert Elements(ids + [id]) == Elements(ids) + {id};
  }
}
