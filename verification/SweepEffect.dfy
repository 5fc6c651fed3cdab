/**
 What the connection part of the sweep (cleanupLocked in internal/app/coordinator_nodes.go)
 does to the store, said without the order in which the records are visited.
 */
module SweepEffect {
  import opened Prelude
  import opened ConnectionStore

  // ----- the effect on the visited records `done` -----

  ghost function RequeuedFor(s: Records, done: set<string>, target: string, now: Time): set<string> {
    set id | id in done && id in s && s[id].target == target && Requeues(s[id], now)
  }

  /** Retired records disappear; of the others only the cursor of a requeued one can depend on the order. */
  ghost predicate RecordsSwept(s: Records, m: Records, done: set<string>, now: Time) {
    && (forall id :: id in m <==> id in s && !(id in done && Retires(s[id], now)))
    && (forall id :: id in m ==> m[id] == if id in done then SweptRecord(s[id], m[id].cursor, now) else s[id])
  }

  ghost predicate CountersSwept(s: Records, before: map<string, nat>, after: map<string, nat>, done: set<string>, now: Time) {
    forall t :: Lookup(after, t) == Lookup(before, t) + |RequeuedFor(s, done, t, now)|
  }

  ghost predicate WasRequeued(s: Records, done: set<string>, id: string, now: Time) {
    id in done && id in s && Requeues(s[id], now)
  }

  /** A requeued record holds a cursor above the old counter of its target and up to the new one. */
  ghost predicate CursorsInRange(s: Records, m: Records, before: map<string, nat>, after: map<string, nat>, done: set<string>, now: Time) {
    forall id :: WasRequeued(s, done, id, now) ==>
      id in m && Lookup(before, s[id].target) < m[id].cursor <= Lookup(after, s[id].target)
  }

  ghost predicate CursorsDistinct(s: Records, m: Records, done: set<string>, now: Time) {
    forall a, b :: WasRequeued(s, done, a, now) && WasRequeued(s, done, b, now) && a != b &&
                   a in m && b in m && s[a].target == s[b].target ==>
      m[a].cursor != m[b].cursor
  }

  ghost predicate TargetWoken(s: Records, done: set<string>, target: string, now: Time) {
    exists id :: id in done && id in s && s[id].target == target && Wakes(s[id], now)
  }

  ghost predicate TargetSignalsSwept(s: Records, before: map<string, nat>, after: map<string, nat>, done: set<string>, now: Time) {
    && (forall t :: t in after <==> t in before && !TargetWoken(s, done, t, now))
    && (forall t :: t in after ==> after[t] == before[t])
  }

  ghost predicate RequestSignalsSwept(s: Records, before: map<string, nat>, after: map<string, nat>, done: set<string>, now: Time) {
    && (forall id :: id in after <==> id in before && !(id in done && id in s && Touches(s[id], now)))
    && (forall id :: id in after ==> after[id] == before[id])
  }

  /** The channel of a record that expires or is requeued, or of its target. */
  ghost predicate ClosedBy(s: Store, id: string, now: Time, channel: nat) {
    id in s.connections && Wakes(s.connections[id], now) &&
    (channel in SignalOf(s.targetSignals, s.connections[id].target) || channel in SignalOf(s.requestSignals, id))
  }

  /** Exactly those channels are closed; the one of a retired record is dropped open. */
  ghost predicate ChannelsClosed(s: Store, m: Store, done: set<string>, now: Time) {
    forall channel: nat :: channel in m.closed <==> channel in s.closed || exists id :: id in done && ClosedBy(s, id, now, channel)
  }

  ghost predicate KeyRetired(s: Records, done: set<string>, key: string, now: Time) {
    exists id :: id in done && id in s && Retires(s[id], now) && KeyOf(s[id]) == key
  }

  ghost predicate IndexSwept(s: Records, before: map<string, string>, after: map<string, string>, done: set<string>, now: Time) {
    && (forall k :: k in after <==> k in before && !KeyRetired(s, done, k, now))
    && (forall k :: k in after ==> after[k] == before[k])
  }

  ghost predicate QueueSwept(s: Store, m: Store, done: set<string>, now: Time) {
    && RecordsSwept(s.connections, m.connections, done, now)
    && CountersSwept(s.connections, s.cursors, m.cursors, done, now)
    && CursorsInRange(s.connections, m.connections, s.cursors, m.cursors, done, now)
    && CursorsDistinct(s.connections, m.connections, done, now)
  }

  ghost predicate SignalsSwept(s: Store, m: Store, done: set<string>, now: Time) {
    && TargetSignalsSwept(s.connections, s.targetSignals, m.targetSignals, done, now)
    && RequestSignalsSwept(s.connections, s.requestSignals, m.requestSignals, done, now)
    && ChannelsClosed(s, m, done, now)
  }

  ghost predicate Swept(s: Store, m: Store, done: set<string>, now: Time) {
    && QueueSwept(s, m, done, now)
    && SignalsSwept(s, m, done, now)
    && IndexSwept(s.connections, s.idempotency, m.idempotency, done, now)
    && m.config == s.config && m.acks == s.acks && m.inboxWaiters == s.inboxWaiters && m.nextSignal == s.nextSignal
  }

  // ----- one more record -----

  ghost predicate Unvisited(s: Store, m: Store, done: set<string>, id: string) {
    id !in done && id in s.connections && id in m.connections && m.connections[id] == s.connections[id]
  }

  lemma RecordsStep(s: Store, m: Store, done: set<string>, id: string, now: Time)
    requires RecordsSwept(s.connections, m.connections, done, now) && id !in done && id in s.connections
    ensures Unvisited(s, m, done, id)
    ensures RecordsSwept(s.connections, SweepOne(m, id, now).connections, done + {id}, now)
  {
  }

  lemma RequeuedForStep(s: Records, done: set<string>, id: string, t: string, now: Time)
    requires id !in done && id in s
    ensures |RequeuedFor(s, done + {id}, t, now)| ==
            |RequeuedFor(s, done, t, now)| + (if s[id].target == t && Requeues(s[id], now) then 1 else 0)
  {
    var before, after := RequeuedFor(s, done, t, now), RequeuedFor(s, done + {id}, t, now);
    if s[id].target == t && Requeues(s[id], now) {
      assert after == before + {id};
    } else {
      assert after == before;
    }
  }

  lemma CountersStep(s: Store, m: Store, done: set<string>, id: string, now: Time)
    requires Unvisited(s, m, done, id) && CountersSwept(s.connections, s.cursors, m.cursors, done, now)
    ensures CountersSwept(s.connections, s.cursors, SweepOne(m, id, now).cursors, done + {id}, now)
  {
    forall t
      ensures Lookup(SweepOne(m, id, now).cursors, t) == Lookup(s.cursors, t) + |RequeuedFor(s.connections, done + {id}, t, now)|
    {
      RequeuedForStep(s.connections, done, id, t, now);
    }
  }

  lemma RangeStep(s: Store, m: Store, done: set<string>, id: string, now: Time)
    requires Unvisited(s, m, done, id) && CountersSwept(s.connections, s.cursors, m.cursors, done, now)
    requires CursorsInRange(s.connections, m.connections, s.cursors, m.cursors, done, now)
    ensures var n := SweepOne(m, id, now);
            CursorsInRange(s.connections, n.connections, s.cursors, n.cursors, done + {id}, now)
  {
    var n := SweepOne(m, id, now);
    forall w | WasRequeued(s.connections, done + {id}, w, now)
      ensures w in n.connections
      ensures Lookup(s.cursors, s.connections[w].target) < n.connections[w].cursor <= Lookup(n.cursors, s.connections[w].target)
    {
      if w == id {
        RangeSelf(s, m, done, id, now);
      } else {
        RangeOther(s, m, done, id, now, w);
      }
    }
  }

  lemma RangeSelf(s: Store, m: Store, done: set<string>, id: string, now: Time)
    requires Unvisited(s, m, done, id) && CountersSwept(s.connections, s.cursors, m.cursors, done, now)
    requires Requeues(s.connections[id], now)
    ensures var n, t := SweepOne(m, id, now), s.connections[id].target;
            id in n.connections && Lookup(s.cursors, t) < n.connections[id].cursor <= Lookup(n.cursors, t)
  {
    assert Lookup(m.cursors, s.connections[id].target) >= Lookup(s.cursors, s.connections[id].target);
  }

  lemma RangeOther(s: Store, m: Store, done: set<string>, id: string, now: Time, w: string)
    requires Unvisited(s, m, done, id) && w != id && WasRequeued(s.connections, done, w, now)
    requires CursorsInRange(s.connections, m.connections, s.cursors, m.cursors, done, now)
    ensures var n, t := SweepOne(m, id, now), s.connections[w].target;
            w in n.connections && Lookup(s.cursors, t) < n.connections[w].cursor <= Lookup(n.cursors, t)
  {
  }

  lemma DistinctStep(s: Store, m: Store, done: set<string>, id: string, now: Time)
    requires Unvisited(s, m, done, id) && CursorsDistinct(s.connections, m.connections, done, now)
    requires CursorsInRange(s.connections, m.connections, s.cursors, m.cursors, done, now)
    ensures CursorsDistinct(s.connections, SweepOne(m, id, now).connections, done + {id}, now)
  {
    var n := SweepOne(m, id, now).connections;
    var c := s.connections[id];
    forall w
      ensures WasRequeued(s.connections, done + {id}, w, now) <==>
              WasRequeued(s.connections, done, w, now) || (w == id && Requeues(c, now))
    {
    }
    assert forall w :: WasRequeued(s.connections, done, w, now) ==> w in n && n[w] == m.connections[w];
  }

  lemma TargetSignalsStep(s: Store, m: Store, done: set<string>, id: string, now: Time)
    requires Unvisited(s, m, done, id) && TargetSignalsSwept(s.connections, s.targetSignals, m.targetSignals, done, now)
    ensures TargetSignalsSwept(s.connections, s.targetSignals, SweepOne(m, id, now).targetSignals, done + {id}, now)
  {
    var r := s.connections;
    forall t
      ensures TargetWoken(r, done + {id}, t, now) <==> TargetWoken(r, done, t, now) || (r[id].target == t && Wakes(r[id], now))
    {
      if r[id].target == t && Wakes(r[id], now) {
        assert id in done + {id};
      }
      if TargetWoken(r, done, t, now) {
        var w :| w in done && w in r && r[w].target == t && Wakes(r[w], now);
        assert w in done + {id};
      }
    }
  }

  lemma RequestSignalsStep(s: Store, m: Store, done: set<string>, id: string, now: Time)
    requires Unvisited(s, m, done, id) && RequestSignalsSwept(s.connections, s.requestSignals, m.requestSignals, done, now)
    ensures RequestSignalsSwept(s.connections, s.requestSignals, SweepOne(m, id, now).requestSignals, done + {id}, now)
  {
  }

  lemma ChannelsStep(s: Store, m: Store, done: set<string>, id: string, now: Time)
    requires Unvisited(s, m, done, id) && SignalsSwept(s, m, done, now)
    ensures ChannelsClosed(s, SweepOne(m, id, now), done + {id}, now)
  {
    var n := SweepOne(m, id, now);
    forall channel: nat
      ensures channel in n.closed <==> channel in s.closed || exists w :: w in done + {id} && ClosedBy(s, w, now, channel)
    {
      ChannelStep(s, m, done, id, now, channel);
    }
  }

  lemma ChannelStep(s: Store, m: Store, done: set<string>, id: string, now: Time, channel: nat)
    requires Unvisited(s, m, done, id) && SignalsSwept(s, m, done, now)
    ensures channel in SweepOne(m, id, now).closed <==>
            channel in s.closed || exists w :: w in done + {id} && ClosedBy(s, w, now, channel)
  {
    var c := s.connections[id];
    if TargetWoken(s.connections, done, c.target, now) {
      var w :| w in done && w in s.connections && s.connections[w].target == c.target && Wakes(s.connections[w], now);
      assert channel in SignalOf(s.targetSignals, c.target) ==> ClosedBy(s, w, now, channel);
    }
    assert channel in SweepOne(m, id, now).closed <==> channel in m.closed || ClosedBy(s, id, now, channel);
  }

  lemma IndexStep(s: Store, m: Store, done: set<string>, id: string, now: Time)
    requires Unvisited(s, m, done, id) && IndexSwept(s.connections, s.idempotency, m.idempotency, done, now)
    ensures IndexSwept(s.connections, s.idempotency, SweepOne(m, id, now).idempotency, done + {id}, now)
  {
    var r := s.connections;
    forall k
      ensures KeyRetired(r, done + {id}, k, now) <==> KeyRetired(r, done, k, now) || (Retires(r[id], now) && KeyOf(r[id]) == k)
    {
      if Retires(r[id], now) && KeyOf(r[id]) == k {
        assert id in done + {id};
      }
      if KeyRetired(r, done, k, now) {
        var w :| w in done && w in r && Retires(r[w], now) && KeyOf(r[w]) == k;
        assert w in done + {id};
      }
    }
  }

  lemma QueueStep(s: Store, m: Store, done: set<string>, id: string, now: Time)
    requires QueueSwept(s, m, done, now) && id !in done && id in s.connections
    ensures QueueSwept(s, SweepOne(m, id, now), done + {id}, now)
  {
    RecordsStep(s, m, done, id, now);
    CountersStep(s, m, done, id, now);
    RangeStep(s, m, done, id, now);
    DistinctStep(s, m, done, id, now);
  }

  lemma SignalsStep(s: Store, m: Store, done: set<string>, id: string, now: Time)
    requires SignalsSwept(s, m, done, now) && Unvisited(s, m, done, id)
    ensures SignalsSwept(s, SweepOne(m, id, now), done + {id}, now)
  {
    TargetSignalsStep(s, m, done, id, now);
    RequestSignalsStep(s, m, done, id, now);
    ChannelsStep(s, m, done, id, now);
  }

  lemma SweptStep(s: Store, m: Store, done: set<string>, id: string, now: Time)
    requires Swept(s, m, done, now) && id !in done && id in s.connections
    ensures Swept(s, SweepOne(m, id, now), done + {id}, now)
  {
    RecordsStep(s, m, done, id, now);
    QueueStep(s, m, done, id, now);
    SignalsStep(s, m, done, id, now);
    IndexStep(s, m, done, id, now);
  }

  lemma SweptNothing(s: Store, now: Time)
    ensures Swept(s, s, {}, now)
  {
    forall t ensures |RequeuedFor(s.connections, {}, t, now)| == 0 {
      assert RequeuedFor(s.connections, {}, t, now) == {};
    }
  }

  /** The fold over any visiting order has the order-free effect. */
  lemma {:induction false} SweepHasEffect(s: Store, order: seq<string>, now: Time)
    requires forall i, j :: 0 <= i < j < |order| ==> order[i] != order[j]
    requires forall id :: id in order ==> id in s.connections
    ensures Swept(s, Sweep(s, order, now), Elements(order), now)
  {
    if order == [] {
      SweptNothing(s, now);
      assert Elements(order) == {};
    } else {
      var front, id := order[..|order| - 1], order[|order| - 1];
      SweepHasEffect(s, front, now);
      OrderPrefix(order);
      SweptStep(s, Sweep(s, front, now), Elements(front), id, now);
    }
  }

  // ----- whole sweeps -----

  /** Nothing is due at this instant. */
  ghost predicate Settled(s: Records, now: Time) {
    forall id :: id in s ==> !Touches(s[id], now)
  }

  lemma RecordsSettle(s: Records, m: Records, now: Time)
    requires RecordsSwept(s, m, s.Keys, now)
    ensures Settled(m, now)
  {
  }

  /** A sweep leaves nothing due at its own instant. */
  lemma SweepSettles(s: Store, order: seq<string>, now: Time)
    requires IsOrder(order, s.connections.Keys)
    ensures Swept(s, Sweep(s, order, now), s.connections.Keys, now)
    ensures Settled(Sweep(s, order, now).connections, now)
  {
    SweepHasEffect(s, order, now);
    OrderElements(order, s.connections.Keys);
    RecordsSettle(s.connections, Sweep(s, order, now).connections, now);
  }

  lemma SettledOne(s: Store, id: string, now: Time)
    requires Settled(s.connections, now)
    ensures SweepOne(s, id, now) == s
  {
    if id in s.connections {
      assert SweptConnections(s.connections, id, 0, now) == s.connections;
    }
  }

  lemma {:induction false} SettledUnchanged(s: Store, order: seq<string>, now: Time)
    requires Settled(s.connections, now)
    ensures Sweep(s, order, now) == s
  {
    if order != [] {
      SettledUnchanged(s, order[..|order| - 1], now);
      SettledOne(s, order[|order| - 1], now);
    }
  }

  /** A second sweep at the same instant changes nothing, whatever the two visiting orders. */
  lemma SweepIdempotent(s: Store, first: seq<string>, second: seq<string>, now: Time)
    requires IsOrder(first, s.connections.Keys)
    ensures Sweep(Sweep(s, first, now), second, now) == Sweep(s, first, now)
  {
    SweepSettles(s, first, now);
    SettledUnchanged(Sweep(s, first, now), second, now);
  }

  // ----- the cursors a sweep hands out -----

  ghost function CursorsTaken(s: Records, m: Records, target: string, now: Time): set<nat> {
    set id | id in RequeuedFor(s, s.Keys, target, now) && id in m :: m[id].cursor
  }

  predicate Between(low: nat, n: nat, high: nat) {
    low < n <= high
  }

  ghost function Interval(low: nat, high: nat): set<nat> {
    set n: nat | n <= high && Between(low, n, high)
  }

  lemma {:induction false} IntervalSize(low: nat, high: nat)
    requires low <= high
    ensures |Interval(low, high)| == high - low
    decreases high - low
  {
    if low == high {
      assert Interval(low, high) == {};
    } else {
      IntervalSize(low, high - 1);
      assert Interval(low, high) == Interval(low, high - 1) + {high};
    }
  }

  /** Distinct cursors make as many cursors as records. */
  lemma {:induction false} ImageSize(ids: set<string>, m: Records)
    requires forall id :: id in ids ==> id in m
    requires forall a, b :: a in ids && b in ids && a != b ==> m[a].cursor != m[b].cursor
    ensures |set id | id in ids :: m[id].cursor| == |ids|
    decreases |ids|
  {
    var image := set id | id in ids :: m[id].cursor;
    if ids == {} {
      assert image == {};
    } else {
      var x :| x in ids;
      var rest := ids - {x};
      ImageSize(rest, m);
      assert image == (set id | id in rest :: m[id].cursor) + {m[x].cursor};
    }
  }

  lemma FullSubset(small: set<nat>, large: set<nat>)
    requires small <= large && |small| == |large|
    ensures small == large
  {
    assert large == small + (large - small);
  }

  /** The k requeued records of a target receive exactly the cursors counter+1 .. counter+k. */
  lemma RequeuedCursorsAreConsecutive(s: Store, order: seq<string>, target: string, now: Time)
    requires IsOrder(order, s.connections.Keys)
    ensures var m := Sweep(s, order, now);
            var k := |RequeuedFor(s.connections, s.connections.Keys, target, now)|;
            Lookup(m.cursors, target) == Lookup(s.cursors, target) + k &&
            CursorsTaken(s.connections, m.connections, target, now) ==
              Interval(Lookup(s.cursors, target), Lookup(s.cursors, target) + k)
  {
    SweepSettles(s, order, now);
    var m := Sweep(s, order, now);
    TakenIsInterval(s.connections, m.connections, s.cursors, m.cursors, target, now);
  }

  lemma TakenIsInterval(s: Records, m: Records, before: map<string, nat>, after: map<string, nat>, target: string, now: Time)
    requires RecordsSwept(s, m, s.Keys, now) && CountersSwept(s, before, after, s.Keys, now)
    requires CursorsInRange(s, m, before, after, s.Keys, now) && CursorsDistinct(s, m, s.Keys, now)
    ensures CursorsTaken(s, m, target, now) == Interval(Lookup(before, target), Lookup(after, target))
  {
    var ids := RequeuedFor(s, s.Keys, target, now);
    ImageSize(ids, m);
    assert CursorsTaken(s, m, target, now) == (set id | id in ids :: m[id].cursor);
    var low, high := Lookup(before, target), Lookup(after, target);
    IntervalSize(low, high);
    assert CursorsTaken(s, m, target, now) <= Interval(low, high);
    FullSubset(CursorsTaken(s, m, target, now), Interval(low, high));
  }

  // ----- map iteration order -----

  ghost predicate SameRecordsUpToCursors(s: Records, a: Records, b: Records, now: Time) {
    && a.Keys == b.Keys
    && (forall id :: id in a ==>
          id in s && a[id] == b[id].(cursor := a[id].cursor) && (!Requeues(s[id], now) ==> a[id] == b[id]))
  }

  lemma RecordsAgree(s: Records, a: Records, b: Records, now: Time)
    requires RecordsSwept(s, a, s.Keys, now) && RecordsSwept(s, b, s.Keys, now)
    ensures SameRecordsUpToCursors(s, a, b, now)
  {
  }

  lemma OthersAgree(s: Store, a: Store, b: Store, now: Time)
    requires IndexSwept(s.connections, s.idempotency, a.idempotency, s.connections.Keys, now)
    requires IndexSwept(s.connections, s.idempotency, b.idempotency, s.connections.Keys, now)
    requires TargetSignalsSwept(s.connections, s.targetSignals, a.targetSignals, s.connections.Keys, now)
    requires TargetSignalsSwept(s.connections, s.targetSignals, b.targetSignals, s.connections.Keys, now)
    requires RequestSignalsSwept(s.connections, s.requestSignals, a.requestSignals, s.connections.Keys, now)
    requires RequestSignalsSwept(s.connections, s.requestSignals, b.requestSignals, s.connections.Keys, now)
    requires ChannelsClosed(s, a, s.connections.Keys, now) && ChannelsClosed(s, b, s.connections.Keys, now)
    ensures a.idempotency == b.idempotency && a.targetSignals == b.targetSignals && a.requestSignals == b.requestSignals
    ensures a.closed == b.closed
  {
  }

  /**
   Map iteration order decides nothing but which requeued record of a target gets which of the
   new cursors: the same records expire, requeue and disappear, the counters end equal, the same
   cursors are used, and the same waiters are woken.
   */
  lemma SweepOrderIrrelevant(s: Store, first: seq<string>, second: seq<string>, now: Time)
    requires IsOrder(first, s.connections.Keys) && IsOrder(second, s.connections.Keys)
    ensures var a, b := Sweep(s, first, now), Sweep(s, second, now);
      && SameRecordsUpToCursors(s.connections, a.connections, b.connections, now)
      && (forall t :: Lookup(a.cursors, t) == Lookup(b.cursors, t))
      && (forall t :: CursorsTaken(s.connections, a.connections, t, now) == CursorsTaken(s.connections, b.connections, t, now))
      && a.idempotency == b.idempotency && a.acks == b.acks && a.inboxWaiters == b.inboxWaiters
      && a.targetSignals == b.targetSignals && a.requestSignals == b.requestSignals && a.nextSignal == b.nextSignal
      && a.closed == b.closed && a.config == b.config
  {
    SweepSettles(s, first, now);
    SweepSettles(s, second, now);
    var a, b := Sweep(s, first, now), Sweep(s, second, now);
    RecordsAgree(s.connections, a.connections, b.connections, now);
    OthersAgree(s, a, b, now);
    forall t
      ensures CursorsTaken(s.connections, a.connections, t, now) == CursorsTaken(s.connections, b.connections, t, now)
    {
      TakenIsInterval(s.connections, a.connections, s.cursors, a.cursors, t, now);
      TakenIsInterval(s.connections, b.connections, s.cursors, b.cursors, t, now);
    }
  }
}
