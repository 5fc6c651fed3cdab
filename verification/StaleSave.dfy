/**
 A run in which a node saves the replies of two polls in the wrong order. The second poll redelivers
 a request under a new cursor; the first reply, saved last, puts its old copy back.
 */
module StaleSave {
  import opened Prelude
  import opened Topology
  import opened ConnectionStore
  import opened StoreInvariants
  import opened SweepEffect
  import opened InboxMerge
  import opened Delivery
  import opened DeliveryTheorems

  const CONFIG := Config(100, 10, 1)
  const INPUT := CreateInput("k", "t", "svc", "")
  const KEY: string := IndexKey("s", "k")
  const NODES: map<string, Node> :=
    map["s" := Node("s", "s", Client, "seg", "net", "", [], None, "", 0),
        "t" := Node("t", "t", Client, "seg", "net", "", [Service("t", "svc", "seg", [], "", "")], None, "", 0)]

  /** The one request: queued, offered, and both again under cursor 2. */
  const QUEUED := Connection("id", "k", "s", "t", "svc", "", Queued, 100, "", 1, 0, 0, 100, None)
  const FIRST := QUEUED.(state := Offered, statusCode := 102, leaseEnds := Some(10))
  const REQUEUED := QUEUED.(cursor := 2, updatedAt := 11)
  const SECOND := REQUEUED.(state := Offered, statusCode := 102, leaseEnds := Some(21))
  const OLD := Inbox(1, [FIRST])
  const NEW := Inbox(2, [SECOND])

  function Holding(c: Connection, waiters: set<string>): Store {
    Store(CONFIG, map["id" := c], map[KEY := "id"], map["t" := c.cursor], map[], map[], map[], {}, 0, waiters)
  }

  function Poll(phase: Phase): Poller {
    InboxPoll("t", 0, 32, phase)
  }

  function StoreAt(i: nat): Store {
    match i
    case 0 => Empty(CONFIG)
    case 1 => Holding(QUEUED, {})
    case 2 => Holding(QUEUED, {"t"})
    case 3 => Holding(FIRST, {"t"})
    case 4 => Holding(FIRST, {})
    case 5 => Holding(FIRST, {"t"})
    case _ => Holding(SECOND, {"t"})
  }

  function PollersAt(i: nat): map<nat, Poller> {
    match i
    case 0 => map[]
    case 1 => map[]
    case 2 => map[0 := Poll(Running)]
    case 3 => map[0 := Poll(Leaving)]
    case 4 => map[]
    case 5 => map[1 := Poll(Running)]
    case _ => map[1 := Poll(Leaving)]
  }

  /** What matters of the run after i steps. */
  ghost predicate At(i: nat, s: Sys) {
    && s.store == StoreAt(i) && s.clock == (if i < 6 then 0 else 11) && s.history.pollers == PollersAt(i)
    && (i == 0 ==> s.history.born == map[])
    && (i >= 3 ==> OLD in LookupSet(s.history.sent, "t"))
    && (i >= 6 ==> NEW in LookupSet(s.history.sent, "t"))
    && InboxOf(s.history, "t") == if i < 7 then EMPTY_INBOX else NEW
  }

  function Next(i: nat): Event {
    match i
    case 0 => Create("s", INPUT, NODES, "id", [], 0)
    case 1 => PollStart(0, "t", 0, 0)
    case 2 => PollPass(0, ["id"], [QUEUED], true, 0)
    case 3 => PollLeave(0)
    case 4 => PollStart(1, "t", 0, 0)
    case 5 => PollPass(1, ["id"], [REQUEUED], true, 11)
    case _ => NodeSave("t", NEW, NEW)
  }

  ghost predicate Leads(s: Sys, i: nat) {
    Enabled(s, Next(i)) && At(i + 1, Apply(s, Next(i)))
  }

  lemma SweepSingle(s: Store, now: Time)
    ensures Sweep(s, [], now) == s
    ensures Sweep(s, ["id"], now) == SweepOne(s, "id", now)
  {
    assert ["id"][..0] == [];
  }

  lemma Creates(s: Sys)
    requires At(0, s)
    ensures Leads(s, 0)
  {
    SweepSingle(s.store, 0);
    CreateAllowed(s.store);
    FirstInsert();
    CreateDone(s, Apply(s, Next(0)));
  }

  lemma CreateDone(s: Sys, n: Sys)
    requires At(0, s) && n.store == Holding(QUEUED, {}) && n.clock == 0
    requires n.history == s.history.(born := n.history.born)
    ensures At(1, n)
  {
  }

  lemma CreateAllowed(s: Store)
    requires s == Empty(CONFIG)
    ensures CreateStatus(s, "s", INPUT, NODES) == 201 && WellFormedInput(INPUT) && NUL !in "s"
  {
    assert NODES["t"].services[0].name == "svc";
    assert LiveFor(map[], "t") == {};
  }

  lemma FirstInsert()
    ensures Insert(Empty(CONFIG), "s", INPUT, "id", 0) == Holding(QUEUED, {})
  {
    assert NewConnection(Empty(CONFIG), "s", INPUT, "id", 0) == QUEUED;
  }

  lemma Starts(s: Sys, i: nat)
    requires (i == 1 || i == 4) && At(i, s)
    ensures Leads(s, i)
  {
  }

  lemma Leaves(s: Sys)
    requires At(3, s)
    ensures Leads(s, 3)
  {
    assert {"t"} - {"t"} == {};
  }

  /** The batch of a store with one queued record, and the store that offers it. */
  lemma OneBatch(s: Store, c: Connection)
    requires s == Holding(c, {"t"}) && c.id == "id" && c.target == "t" && c.state == Queued && c.cursor > 0
    ensures IsBatch(s, "t", 0, 32, [c])
    ensures Offer(s, [c], c.updatedAt) == Holding(AsOffered(c, c.updatedAt, 10), {"t"})
  {
    assert PendingIds(s, "t", 0) == {"id"};
    assert [c][..0] == [];
    assert Offer(s, [c], c.updatedAt) == OfferOne(s, c, c.updatedAt);
  }

  lemma FirstSwept()
    ensures Sweep(Holding(QUEUED, {"t"}), ["id"], 0) == Holding(QUEUED, {"t"})
  {
    SweepSingle(Holding(QUEUED, {"t"}), 0);
    assert SweepOne(Holding(QUEUED, {"t"}), "id", 0) == Holding(QUEUED, {"t"});
  }

  /** A pass over the one record, whose swept version is known. */
  lemma Passes(s: Sys, p: nat, c: Connection, now: Time)
    requires s.clock <= now && s.store.connections.Keys == {"id"} && s.history.pollers == map[p := Poll(Running)]
    requires Sweep(s.store, ["id"], now) == Holding(c, {"t"}) && c.updatedAt == now
    requires c.id == "id" && c.target == "t" && c.state == Queued && c.cursor > 0
    ensures var e := PollPass(p, ["id"], [c], true, now);
            Enabled(s, e) && Apply(s, e).store == Holding(AsOffered(c, now, 10), {"t"}) && Apply(s, e).clock == now &&
            Apply(s, e).history.pollers == map[p := Poll(Leaving)] && Apply(s, e).history.inboxes == s.history.inboxes &&
            LookupSet(Apply(s, e).history.sent, "t") == LookupSet(s.history.sent, "t") + {Inbox(c.cursor, [AsOffered(c, now, 10)])}
  {
    OneBatch(Holding(c, {"t"}), c);
    Delivered(s.history, p, c, now);
  }

  lemma Delivered(h: History, p: nat, c: Connection, now: Time)
    requires h.pollers == map[p := Poll(Running)]
    ensures var n := Deliver(h, p, [c], true, now, 10);
            n.pollers == map[p := Poll(Leaving)] && n.inboxes == h.inboxes &&
            LookupSet(n.sent, "t") == LookupSet(h.sent, "t") + {Inbox(c.cursor, [AsOffered(c, now, 10)])}
  {
    assert OfferedCopies([c], now, 10) == [AsOffered(c, now, 10)];
  }

  lemma FirstPass(s: Sys)
    requires At(2, s)
    ensures Leads(s, 2)
  {
    FirstSwept();
    Passes(s, 0, QUEUED, 0);
    Copies();
  }

  lemma SecondSwept()
    ensures Sweep(Holding(FIRST, {"t"}), ["id"], 11) == Holding(REQUEUED, {"t"})
  {
    SweepSingle(Holding(FIRST, {"t"}), 11);
    assert Requeues(FIRST, 11) && SweptRecord(FIRST, 2, 11) == REQUEUED;
  }

  lemma SecondPass(s: Sys)
    requires At(5, s)
    ensures Leads(s, 5)
  {
    SecondSwept();
    Passes(s, 1, REQUEUED, 11);
    SecondDone(s, Apply(s, Next(5)));
  }

  lemma SecondDone(s: Sys, n: Sys)
    requires At(5, s)
    requires n.store == Holding(AsOffered(REQUEUED, 11, 10), {"t"}) && n.clock == 11
    requires n.history.pollers == map[1 := Poll(Leaving)] && n.history.inboxes == s.history.inboxes
    requires LookupSet(n.history.sent, "t") == LookupSet(s.history.sent, "t") + {Inbox(2, [AsOffered(REQUEUED, 11, 10)])}
    ensures At(6, n)
  {
    Copies();
  }

  lemma Copies()
    ensures AsOffered(QUEUED, 0, 10) == FIRST && AsOffered(REQUEUED, 11, 10) == SECOND
    ensures Inbox(1, [FIRST]) == OLD && Inbox(2, [SECOND]) == NEW
  {
  }

  lemma Merges(saved: Inbox, c: Connection, cursor: nat)
    requires c.id == "id" && forall d :: d in saved.events ==> d.id == "id"
    ensures IsMerge(saved, Inbox(cursor, [c]), Inbox(MaxCursor(saved.cursor, cursor), [c]))
  {
    var base := Overlay(map[], KeepLive(saved.events));
    forall id | id in base ensures id == "id" {
      OverlayAt(map[], KeepLive(saved.events), id);
    }
    OverlaySingle(base, c);
    assert [c][0] in [c];
  }

  lemma OverlaySingle(base: Records, c: Connection)
    requires forall id :: id in base ==> id == c.id
    ensures Overlay(base, [c]) == map[c.id := c]
  {
    assert [c][..0] == [];
    assert Overlay(base, [c]) == base[c.id := c];
  }

  lemma Saves(s: Sys)
    requires At(6, s)
    ensures Leads(s, 6)
  {
    Merges(EMPTY_INBOX, SECOND, 2);
  }

  lemma StageLeads(s: Sys, i: nat)
    requires i < 7 && At(i, s)
    ensures Leads(s, i)
  {
    match i
    case 0 => Creates(s);
    case 1 => Starts(s, 1);
    case 2 => FirstPass(s);
    case 3 => Leaves(s);
    case 4 => Starts(s, 4);
    case 5 => SecondPass(s);
    case 6 => Saves(s);
  }

  lemma Begins()
    ensures IsRun([Init(CONFIG, 0)], []) && At(0, Init(CONFIG, 0))
  {
    assert CONFIG.ttl > 0 && CONFIG.lease > 0;
  }

  lemma {:induction false} RunTo(n: nat) returns (trace: seq<Sys>, events: seq<Event>)
    requires n <= 7
    ensures IsRun(trace, events) && |events| == n && At(n, trace[n])
  {
    if n == 0 {
      Begins();
      trace, events := [Init(CONFIG, 0)], [];
    } else {
      trace, events := RunTo(n - 1);
      trace, events := RunOn(trace, events, n - 1);
    }
  }

  lemma RunOn(trace: seq<Sys>, events: seq<Event>, n: nat) returns (more: seq<Sys>, all: seq<Event>)
    requires n < 7 && IsRun(trace, events) && |events| == n && At(n, trace[n])
    ensures IsRun(more, all) && |all| == n + 1 && At(n + 1, more[n + 1])
  {
    var s := trace[n];
    StageLeads(s, n);
    var next := Apply(s, Next(n));
    Extend(trace, events, Next(n), next);
    more, all := trace + [next], events + [Next(n)];
    assert more[n + 1] == next;
  }

  lemma Extend(trace: seq<Sys>, events: seq<Event>, e: Event, n: Sys)
    requires IsRun(trace, events) && Enabled(trace[|events|], e) && Apply(trace[|events|], e) == n
    ensures IsRun(trace + [n], events + [e])
  {
    var more, all := trace + [n], events + [e];
    forall i | 0 <= i < |all| ensures Enabled(more[i], all[i]) && more[i + 1] == Apply(more[i], all[i]) {
      assert i < |events| ==> Enabled(trace[i], events[i]);
    }
  }

  /** A sent reply whose save would put an older copy back. */
  ghost predicate GoesBack(s: Sys, node: string, reply: Inbox, merged: Inbox) {
    reply in LookupSet(s.history.sent, node) && IsMerge(InboxOf(s.history, node), reply, merged) &&
    !NewestKept(InboxOf(s.history, node), reply, merged)
  }

  lemma StaleSaveGoesBack()
    ensures exists trace, events :: IsRun(trace, events) && GoesBack(trace[|events|], "t", OLD, Inbox(2, [FIRST]))
  {
    var trace, events := RunTo(7);
    EndGoesBack(trace[7]);
  }

  lemma EndGoesBack(s: Sys)
    requires At(7, s)
    ensures GoesBack(s, "t", OLD, Inbox(2, [FIRST]))
  {
    Merges(NEW, FIRST, 1);
    assert FIRST in [FIRST] && SECOND in [SECOND];
  }
}
