/**
 connection-inbox.json as the node's process changes it: saveInbox of
 internal/app/connection_inbox.go and removeInboxRequest of internal/app/connection_client.go.
 */
module NodeInbox {
  import opened Prelude
  import opened Sorting
  import opened ConnectionStore
  import opened InboxMerge

  lemma OverlaySnoc(base: Records, events: seq<Connection>, c: Connection)
    ensures Overlay(base, events + [c]) == Overlay(base, events)[c.id := c]
  {
    assert (events + [c])[..|events|] == events;
  }

  lemma UndecidedNext(events: seq<Connection>, i: nat)
    requires i < |events|
    ensures Overlay(map[], KeepLive(events[..i + 1])) ==
            if Terminal(events[i].state) then Overlay(map[], KeepLive(events[..i]))
            else Overlay(map[], KeepLive(events[..i]))[events[i].id := events[i]]
  {
    assert events[..i + 1][..i] == events[..i];
    var live := KeepLive(events[..i]);
    assert live + [] == live;
    OverlaySnoc(map[], live, events[i]);
  }

  lemma WithoutNext(events: seq<Connection>, i: nat, id: string)
    requires i < |events|
    ensures Without(events[..i + 1], id) == Without(events[..i], id) + if events[i].id == id then [] else [events[i]]
  {
    assert events[..i + 1][..i] == events[..i];
  }

  /** The values of the keys visited, each once. */
  ghost predicate Collected(events: seq<Connection>, m: Records, done: set<string>) {
    && DistinctBy(events, (c: Connection) => c.id)
    && (forall c :: c in events <==> c.id in done && c.id in m && m[c.id] == c)
  }

  lemma SortedArranges(events: seq<Connection>, sorted: seq<Connection>, m: Records)
    requires Collected(events, m, m.Keys) && (forall id :: id in m ==> m[id].id == id)
    requires SortedBy(sorted, CursorBefore) && multiset(sorted) == multiset(events)
    ensures SortedByCursor(sorted) && Arranges(sorted, m)
  {
    SameElements(sorted, events);
    DistinctKept(events, sorted, (c: Connection) => c.id);
    forall i | 0 <= i < |sorted| ensures sorted[i].id in m && m[sorted[i].id] == sorted[i] {
      assert sorted[i] in events;
    }
    forall i, j | 0 <= i < j < |sorted| ensures sorted[i].cursor <= sorted[j].cursor && sorted[i].id != sorted[j].id {
      assert !CursorBefore(sorted[j], sorted[i]);
    }
  }

  class InboxFile {
    var cursor: nat
    var events: seq<Connection>

    ghost function View(): Inbox
      reads this
    {
      Inbox(cursor, events)
    }

    constructor ()
      ensures View() == EMPTY_INBOX
    {
      cursor, events := 0, [];
    }

    /** The undecided saved events by request ID. */
    static method Undecided(events: seq<Connection>) returns (byId: Records)
      ensures byId == Overlay(map[], KeepLive(events))
    {
      byId := map[];
      for i := 0 to |events|
        invariant byId == Overlay(map[], KeepLive(events[..i]))
      {
        UndecidedNext(events, i);
        if !Terminal(events[i].state) {
          byId := byId[events[i].id := events[i]];
        }
      }
      assert events[..|events|] == events;
    }

    static method Replace(base: Records, incoming: seq<Connection>) returns (byId: Records)
      ensures byId == Overlay(base, incoming)
    {
      byId := base;
      for i := 0 to |incoming|
        invariant byId == Overlay(base, incoming[..i])
      {
        assert incoming[..i + 1] == incoming[..i] + [incoming[i]];
        OverlaySnoc(base, incoming[..i], incoming[i]);
        byId := byId[incoming[i].id := incoming[i]];
      }
      assert incoming[..|incoming|] == incoming;
    }

    /** The values of the map in cursor order. */
    static method Arrange(byId: Records) returns (sorted: seq<Connection>)
      requires forall id :: id in byId ==> byId[id].id == id
      ensures SortedByCursor(sorted) && Arranges(sorted, byId)
    {
      var events: seq<Connection> := [];
      var remaining := byId.Keys;
      while remaining != {}
        invariant remaining <= byId.Keys
        invariant Collected(events, byId, byId.Keys - remaining)
        decreases |remaining|
      {
        var id :| id in remaining;
        events := events + [byId[id]];
        remaining := remaining - {id};
      }
      assert byId.Keys - remaining == byId.Keys;
      CursorOrder();
      sorted := Sort(events, CursorBefore);
      SortedArranges(events, sorted, byId);
    }

    /** saveInbox; the flags say whether the old file can be read and the new one written. */
    method Save(reply: Inbox, readable: bool, written: bool)
      modifies this
      ensures if written then IsMerge(ReadBack(old(View()), readable), reply, View()) else View() == old(View())
    {
      var existing := if readable then events else [];
      var undecided := Undecided(existing);
      var byId := Replace(undecided, reply.events);
      assert byId == ById(ReadBack(View(), readable), reply);
      IdsOfOverlay(map[], KeepLive(existing));
      IdsOfOverlay(Overlay(map[], KeepLive(existing)), reply.events);
      var sorted := Arrange(byId);
      if written {
        cursor := if readable && cursor > reply.cursor then cursor else reply.cursor;
        events := sorted;
      }
    }

    /** waitInbox once its reply is decoded: events are acknowledged only after they are on disk. */
    method Receive(reply: Inbox, readable: bool, written: bool) returns (ack: Option<nat>)
      modifies this
      ensures if written then IsMerge(ReadBack(old(View()), readable), reply, View()) else View() == old(View())
      ensures ack == if written && reply.events != [] then Some(reply.cursor) else None
      ensures ack.Some? ==> ack.value <= cursor
    {
      Save(reply, readable, written);
      ack := if written && |reply.events| > 0 then Some(reply.cursor) else None;
    }

    /** removeInboxRequest */
    method Remove(id: string, written: bool)
      modifies this
      ensures View() == if written then old(View()).(events := Without(old(events), id)) else old(View())
    {
      var saved := events;
      var filtered: seq<Connection> := [];
      for i := 0 to |saved|
        invariant events == saved && cursor == old(cursor) && filtered == Without(saved[..i], id)
      {
        WithoutNext(saved, i, id);
        if saved[i].id != id {
          filtered := filtered + [saved[i]];
        }
      }
      assert saved[..|saved|] == saved;
      if written {
        events := filtered;
      }
    }
  }

  lemma {:induction false} IdsOfOverlay(base: Records, events: seq<Connection>)
    requires forall id :: id in base ==> base[id].id == id
    ensures forall id :: id in Overlay(base, events) ==> Overlay(base, events)[id].id == id
  {
    if events != [] {
      IdsOfOverlay(base, events[..|events| - 1]);
    }
  }
}
