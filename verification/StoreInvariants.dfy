/**
 What every section of the connection store keeps: the idempotency index mirrors the records,
 cursors are distinct and below the counter, the life cycle fields fit the state, the capacity
 limits hold, and every registered wake-up channel is open.
 */
module StoreInvariants {
  import opened Prelude
  import opened Topology
  import opened ConnectionStore

  // ----- the parts -----

  ghost predicate ConfigOk(config: Config) {
    config.ttl > 0 && config.lease > 0
  }

  ghost predicate IdsOk(r: Records) {
    forall id :: id in r ==> r[id].id == id && id != "" && NUL !in r[id].source
  }

  /** One entry per record and one record per entry. */
  ghost predicate IndexOk(r: Records, index: map<string, string>) {
    && (forall id :: id in r ==> KeyOf(r[id]) in index && index[KeyOf(r[id])] == id)
    && (forall k :: k in index ==> index[k] in r && KeyOf(r[index[k]]) == k)
  }

  ghost predicate CursorsBelow(r: Records, counters: map<string, nat>) {
    forall id :: id in r ==> 0 < r[id].cursor <= Lookup(counters, r[id].target)
  }

  ghost predicate CursorsUnique(r: Records) {
    forall a, b :: a in r && b in r && a != b && r[a].target == r[b].target ==> r[a].cursor != r[b].cursor
  }

  /** State, status code, lease and the four instants of a record fit together. */
  predicate RecordOk(c: Connection, config: Config, clock: Time) {
    && c.createdAt <= c.updatedAt <= clock
    && c.expiresAt == c.createdAt + config.ttl
    && match c.state {
         case Queued => c.statusCode == 100 && c.leaseEnds == None && c.updatedAt <= c.expiresAt
         case Offered => c.statusCode == 102 && c.leaseEnds == Some(c.updatedAt + config.lease) && c.updatedAt <= c.expiresAt
         case Accepted => c.statusCode == 200 && c.leaseEnds == None && c.updatedAt <= c.expiresAt
         case Rejected => c.statusCode == 403 && c.leaseEnds == None && c.updatedAt <= c.expiresAt
         case Canceled => c.statusCode == 499 && c.leaseEnds == None && c.updatedAt <= c.expiresAt
         case Expired => c.statusCode == 410 && c.leaseEnds == None && c.updatedAt > c.expiresAt
         case Closed => false
         case Failed => false
       }
  }

  ghost predicate RecordsOk(r: Records, config: Config, clock: Time) {
    forall id :: id in r ==> RecordOk(r[id], config, clock)
  }

  ghost predicate BoundsOk(r: Records, config: Config) {
    && |r| <= config.maxStored
    && forall t :: |LiveFor(r, t)| <= MAX_PER_TARGET
  }

  ghost predicate ChannelsOpen(signals: map<string, nat>, closed: set<nat>, next: nat) {
    && (forall k :: k in signals ==> signals[k] < next && signals[k] !in closed)
    && (forall a, b :: a in signals && b in signals && a != b ==> signals[a] != signals[b])
  }

  ghost predicate SignalsOk(s: Store) {
    && ChannelsOpen(s.targetSignals, s.closed, s.nextSignal)
    && ChannelsOpen(s.requestSignals, s.closed, s.nextSignal)
    && (forall t, id :: t in s.targetSignals && id in s.requestSignals ==> s.targetSignals[t] != s.requestSignals[id])
    && (forall ch :: ch in s.closed ==> ch < s.nextSignal)
  }

  ghost predicate StoreOk(s: Store, clock: Time) {
    && ConfigOk(s.config)
    && IdsOk(s.connections)
    && IndexOk(s.connections, s.idempotency)
    && CursorsBelow(s.connections, s.cursors)
    && CursorsUnique(s.connections)
    && RecordsOk(s.connections, s.config, clock)
    && BoundsOk(s.connections, s.config)
    && SignalsOk(s)
  }

  lemma EmptyStoreOk(config: Config, clock: Time)
    requires ConfigOk(config)
    ensures StoreOk(Empty(config), clock)
  {
    forall t ensures |LiveFor(map[], t)| == 0 {
      assert LiveFor(map[], t) == {};
    }
  }

  lemma LaterOk(s: Store, clock: Time, now: Time)
    requires StoreOk(s, clock) && clock <= now
    ensures StoreOk(s, now)
  {
  }

  // ----- the index key -----

  /** `source NUL key` determines both parts when the source holds no NUL. */
  lemma {:induction false} IndexKeyInjective(s1: string, k1: string, s2: string, k2: string)
    requires NUL !in s1 && NUL !in s2 && IndexKey(s1, k1) == IndexKey(s2, k2)
    ensures s1 == s2 && k1 == k2
  {
    var w1, w2 := IndexKey(s1, k1), IndexKey(s2, k2);
    assert forall i :: 0 <= i < |s1| ==> w1[i] == s1[i];
    assert forall i :: 0 <= i < |s2| ==> w2[i] == s2[i];
    assert w1[|s1|] == NUL && w2[|s2|] == NUL;
    assert |s1| == |s2|;
    assert w1[..|s1|] == s1 && w2[..|s2|] == s2;
    assert w1[|s1| + 1..] == k1 && w2[|s2| + 1..] == k2;
  }

  /** Two stored records never share source and key. */
  lemma KeysUnique(r: Records, index: map<string, string>, a: string, b: string)
    requires IndexOk(r, index) && a in r && b in r && r[a].source == r[b].source && r[a].key == r[b].key
    ensures a == b
  {
    assert index[KeyOf(r[a])] == a;
  }

  // ----- one swept record -----

  lemma SweepOneIndex(s: Store, id: string, now: Time)
    requires IdsOk(s.connections) && IndexOk(s.connections, s.idempotency)
    ensures IdsOk(SweepOne(s, id, now).connections)
    ensures IndexOk(SweepOne(s, id, now).connections, SweepOne(s, id, now).idempotency)
  {
    if id in s.connections {
      var n := SweepOne(s, id, now);
      forall w | w in n.connections ensures w in s.connections && KeyOf(n.connections[w]) == KeyOf(s.connections[w]) {
      }
    }
  }

  lemma SweepOneCursors(s: Store, id: string, now: Time)
    requires CursorsBelow(s.connections, s.cursors) && CursorsUnique(s.connections)
    ensures CursorsBelow(SweepOne(s, id, now).connections, SweepOne(s, id, now).cursors)
    ensures CursorsUnique(SweepOne(s, id, now).connections)
  {
    if id in s.connections {
      var n := SweepOne(s, id, now);
      forall w | w in n.connections
        ensures w in s.connections && n.connections[w].target == s.connections[w].target
        ensures n.connections[w].cursor == s.connections[w].cursor ||
                (w == id && n.connections[w].cursor == Lookup(s.cursors, s.connections[w].target) + 1)
      {
      }
    }
  }

  lemma SweepOneRecords(s: Store, id: string, now: Time)
    requires ConfigOk(s.config) && RecordsOk(s.connections, s.config, now)
    ensures RecordsOk(SweepOne(s, id, now).connections, s.config, now)
  {
    if id in s.connections {
      assert RecordOk(s.connections[id], s.config, now);
    }
  }

  lemma LiveSubset(a: Records, b: Records, t: string)
    requires forall id :: id in a && a[id].target == t && !Terminal(a[id].state) ==>
               id in b && b[id].target == t && !Terminal(b[id].state)
    ensures |LiveFor(a, t)| <= |LiveFor(b, t)|
  {
    SubsetSize(LiveFor(a, t), LiveFor(b, t));
  }

  lemma FewerBounds(a: Records, b: Records, config: Config)
    requires BoundsOk(b, config) && a.Keys <= b.Keys
    requires forall id :: id in a && !Terminal(a[id].state) ==> a[id].target == b[id].target && !Terminal(b[id].state)
    ensures BoundsOk(a, config)
  {
    SubsetSize(a.Keys, b.Keys);
    assert |a| == |a.Keys| && |b| == |b.Keys|;
    forall t ensures |LiveFor(a, t)| <= MAX_PER_TARGET {
      LiveSubset(a, b, t);
    }
  }

  lemma SweepOneBounds(s: Store, id: string, now: Time)
    requires BoundsOk(s.connections, s.config)
    ensures BoundsOk(SweepOne(s, id, now).connections, s.config)
  {
    if id in s.connections {
      FewerBounds(SweepOne(s, id, now).connections, s.connections, s.config);
    }
  }

  lemma SweepOneSignals(s: Store, id: string, now: Time)
    requires SignalsOk(s)
    ensures SignalsOk(SweepOne(s, id, now))
  {
  }

  lemma SweepOneOk(s: Store, id: string, now: Time)
    requires StoreOk(s, now)
    ensures StoreOk(SweepOne(s, id, now), now)
  {
    SweepOneIndex(s, id, now);
    SweepOneCursors(s, id, now);
    SweepOneRecords(s, id, now);
    SweepOneBounds(s, id, now);
    SweepOneSignals(s, id, now);
  }

  /** A sweep keeps every store invariant, in any visiting order. */
  lemma {:induction false} SweepOk(s: Store, order: seq<string>, now: Time)
    requires StoreOk(s, now)
    ensures StoreOk(Sweep(s, order, now), now)
  {
    if order != [] {
      SweepOk(s, order[..|order| - 1], now);
      SweepOneOk(Sweep(s, order[..|order| - 1], now), order[|order| - 1], now);
    }
  }

  // ----- a new version of a stored record -----

  predicate SameIdentity(c: Connection, d: Connection) {
    c.id == d.id && c.key == d.key && c.source == d.source && c.target == d.target && c.cursor == d.cursor
  }

  ghost predicate MayBecome(s: Store, c: Connection, clock: Time) {
    && c.id in s.connections && SameIdentity(s.connections[c.id], c)
    && RecordOk(c, s.config, clock) && !Terminal(s.connections[c.id].state)
  }

  lemma RewriteSignals(s: Store, c: Connection, wake: bool)
    requires SignalsOk(s)
    ensures SignalsOk(Rewrite(s, c, wake))
  {
  }

  lemma RewriteIndex(s: Store, c: Connection, wake: bool)
    requires IdsOk(s.connections) && IndexOk(s.connections, s.idempotency)
    requires c.id in s.connections && SameIdentity(s.connections[c.id], c)
    ensures IdsOk(Rewrite(s, c, wake).connections) && IndexOk(Rewrite(s, c, wake).connections, s.idempotency)
  {
  }

  lemma RewriteCursors(s: Store, c: Connection, wake: bool)
    requires CursorsBelow(s.connections, s.cursors) && CursorsUnique(s.connections)
    requires c.id in s.connections && SameIdentity(s.connections[c.id], c)
    ensures CursorsBelow(Rewrite(s, c, wake).connections, s.cursors)
    ensures CursorsUnique(Rewrite(s, c, wake).connections)
  {
  }

  lemma RewriteBounds(s: Store, c: Connection, wake: bool)
    requires BoundsOk(s.connections, s.config)
    requires c.id in s.connections && SameIdentity(s.connections[c.id], c) && !Terminal(s.connections[c.id].state)
    ensures BoundsOk(Rewrite(s, c, wake).connections, s.config)
  {
    FewerBounds(Rewrite(s, c, wake).connections, s.connections, s.config);
  }

  lemma RewriteOk(s: Store, c: Connection, wake: bool, clock: Time)
    requires StoreOk(s, clock) && MayBecome(s, c, clock)
    ensures StoreOk(Rewrite(s, c, wake), clock)
  {
    RewriteSignals(s, c, wake);
    RewriteIndex(s, c, wake);
    RewriteCursors(s, c, wake);
    RewriteBounds(s, c, wake);
  }

  // ----- a new record -----

  lemma InsertIndex(s: Store, source: string, input: CreateInput, id: string, now: Time)
    requires IdsOk(s.connections) && IndexOk(s.connections, s.idempotency)
    requires id !in s.connections && id != "" && NUL !in source && IndexKey(source, input.key) !in s.idempotency
    ensures var n := Insert(s, source, input, id, now); IdsOk(n.connections) && IndexOk(n.connections, n.idempotency)
  {
    var n := Insert(s, source, input, id, now);
    assert KeyOf(n.connections[id]) == IndexKey(source, input.key);
  }

  lemma InsertCursors(s: Store, source: string, input: CreateInput, id: string, now: Time)
    requires CursorsBelow(s.connections, s.cursors) && CursorsUnique(s.connections)
    ensures var n := Insert(s, source, input, id, now); CursorsBelow(n.connections, n.cursors) && CursorsUnique(n.connections)
  {
  }

  lemma LiveInsert(r: Records, id: string, c: Connection, t: string)
    requires id !in r
    ensures |LiveFor(r[id := c], t)| <= |LiveFor(r, t)| + (if c.target == t then 1 else 0)
  {
    if c.target == t && !Terminal(c.state) {
      assert LiveFor(r[id := c], t) == LiveFor(r, t) + {id};
    } else {
      assert LiveFor(r[id := c], t) == LiveFor(r, t);
    }
  }

  lemma InsertBounds(r: Records, config: Config, id: string, c: Connection)
    requires BoundsOk(r, config) && id !in r
    requires |r| < config.maxStored && |LiveFor(r, c.target)| < MAX_PER_TARGET
    ensures BoundsOk(r[id := c], config)
  {
    var n := r[id := c];
    assert n.Keys == r.Keys + {id};
    forall t ensures |LiveFor(n, t)| <= MAX_PER_TARGET {
      LiveInsert(r, id, c, t);
    }
  }

  lemma InsertSignals(s: Store, source: string, input: CreateInput, id: string, now: Time)
    requires SignalsOk(s)
    ensures SignalsOk(Insert(s, source, input, id, now))
  {
    var indexed := s.(cursors := s.cursors[input.target := Lookup(s.cursors, input.target) + 1],
                      idempotency := s.idempotency[IndexKey(source, input.key) := id]);
    RewriteSignals(indexed, NewConnection(s, source, input, id, now), true);
  }

  lemma InsertRecords(s: Store, source: string, input: CreateInput, id: string, now: Time)
    requires ConfigOk(s.config) && RecordsOk(s.connections, s.config, now)
    ensures RecordsOk(Insert(s, source, input, id, now).connections, s.config, now)
  {
  }

  lemma FreshKey(s: Store, source: string, input: CreateInput, nodes: map<string, Node>)
    requires IdsOk(s.connections) && IndexOk(s.connections, s.idempotency)
    requires CreateStatus(s, source, input, nodes) == 201
    ensures IndexKey(source, input.key) !in s.idempotency
    ensures |s.connections| < s.config.maxStored && |LiveFor(s.connections, input.target)| < MAX_PER_TARGET
  {
  }

  lemma InsertOk(s: Store, source: string, input: CreateInput, nodes: map<string, Node>, id: string, now: Time)
    requires StoreOk(s, now) && id !in s.connections && id != "" && NUL !in source
    requires CreateStatus(s, source, input, nodes) == 201
    ensures StoreOk(Insert(s, source, input, id, now), now)
  {
    FreshKey(s, source, input, nodes);
    InsertRecords(s, source, input, id, now);
    InsertIndex(s, source, input, id, now);
    InsertCursors(s, source, input, id, now);
    InsertBounds(s.connections, s.config, id, NewConnection(s, source, input, id, now));
    InsertSignals(s, source, input, id, now);
  }

  // ----- subscriptions, acknowledgements, waiters -----

  lemma SubscribeSignals(s: Store, key: string)
    requires SignalsOk(s)
    ensures SignalsOk(SubscribeTarget(s, key).0)
    ensures SignalsOk(SubscribeRequest(s, key).0)
  {
    NewChannel(s.targetSignals, s.closed, s.nextSignal, key);
    NewChannel(s.requestSignals, s.closed, s.nextSignal, key);
  }

  /** A channel of the next number is open and unlike every other. */
  lemma NewChannel(signals: map<string, nat>, closed: set<nat>, next: nat, key: string)
    requires ChannelsOpen(signals, closed, next) && forall ch :: ch in closed ==> ch < next
    ensures ChannelsOpen(signals[key := next], closed, next + 1) && ChannelsOpen(signals, closed, next + 1)
  {
  }

  lemma SubscribeTargetOk(s: Store, node: string, clock: Time)
    requires StoreOk(s, clock)
    ensures StoreOk(SubscribeTarget(s, node).0, clock)
  {
    SubscribeSignals(s, node);
  }

  lemma SubscribeRequestOk(s: Store, id: string, clock: Time)
    requires StoreOk(s, clock)
    ensures StoreOk(SubscribeRequest(s, id).0, clock)
  {
    SubscribeSignals(s, id);
  }

  lemma AcknowledgeOk(s: Store, node: string, cursor: nat, clock: Time)
    requires StoreOk(s, clock)
    ensures StoreOk(Acknowledge(s, node, cursor), clock)
  {
  }

  lemma WaiterChangeOk(s: Store, node: string, clock: Time)
    requires StoreOk(s, clock)
    ensures StoreOk(RegisterWaiter(s, node), clock) && StoreOk(ReleaseWaiter(s, node), clock)
  {
  }
}
