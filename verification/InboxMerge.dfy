/**
 The node's durable inbox: saveInbox, loadInbox and removeInboxRequest of
 internal/app/connection_inbox.go and internal/app/connection_client.go.
 */
module InboxMerge {
  import opened Prelude
  import opened ConnectionStore

  datatype Inbox = Inbox(cursor: nat, events: seq<Connection>)

  const EMPTY_INBOX := Inbox(0, [])

  /** The events by request ID, a later event replacing an earlier one. */
  function Overlay(base: Records, events: seq<Connection>): Records {
    if events == [] then base
    else Overlay(base, events[..|events| - 1])[events[|events| - 1].id := events[|events| - 1]]
  }

  /** Saved events survive unless they were stored with a terminal state. */
  function KeepLive(events: seq<Connection>): (r: seq<Connection>)
    ensures forall c :: c in r <==> c in events && !Terminal(c.state)
  {
    if events == [] then []
    else
      KeepLive(events[..|events| - 1]) +
      if Terminal(events[|events| - 1].state) then [] else [events[|events| - 1]]
  }

  function ById(saved: Inbox, incoming: Inbox): Records {
    Overlay(Overlay(map[], KeepLive(saved.events)), incoming.events)
  }

  predicate SortedByCursor(events: seq<Connection>) {
    forall i, j :: 0 <= i < j < |events| ==> events[i].cursor <= events[j].cursor
  }

  /** The values of a map, each once, in some order. */
  ghost predicate Arranges(events: seq<Connection>, m: Records) {
    && (forall i :: 0 <= i < |events| ==> events[i].id in m && m[events[i].id] == events[i])
    && (forall i, j :: 0 <= i < j < |events| ==> events[i].id != events[j].id)
    && (forall id :: id in m ==> m[id] in events)
  }

  function MaxCursor(a: nat, b: nat): nat {
    if a > b then a else b
  }

  /** What a save leaves on disk. */
  ghost predicate IsMerge(saved: Inbox, incoming: Inbox, result: Inbox) {
    && result.cursor == MaxCursor(saved.cursor, incoming.cursor)
    && SortedByCursor(result.events)
    && Arranges(result.events, ById(saved, incoming))
  }

  function Without(events: seq<Connection>, id: string): (r: seq<Connection>)
    ensures forall c :: c in r <==> c in events && c.id != id
  {
    if events == [] then []
    else
      Without(events[..|events| - 1], id) + if events[|events| - 1].id == id then [] else [events[|events| - 1]]
  }

  // ----- what the merge means -----

  ghost predicate IsLastWithId(events: seq<Connection>, k: int) {
    0 <= k < |events| && forall j :: k < j < |events| ==> events[j].id != events[k].id
  }

  predicate HasId(events: seq<Connection>, id: string) {
    exists i :: 0 <= i < |events| && events[i].id == id
  }

  lemma HasIdFront(events: seq<Connection>, id: string)
    requires events != []
    ensures HasId(events, id) <==> HasId(events[..|events| - 1], id) || events[|events| - 1].id == id
  {
    var front := events[..|events| - 1];
    if HasId(front, id) {
      var i :| 0 <= i < |front| && front[i].id == id;
      assert events[i].id == id;
    }
  }

  /** An overlay takes an ID from the events if one has it, and from the base otherwise. */
  lemma {:induction false} OverlayAt(base: Records, events: seq<Connection>, id: string)
    ensures id in Overlay(base, events) <==> id in base || HasId(events, id)
    ensures id in base && !HasId(events, id) ==> Overlay(base, events)[id] == base[id]
    ensures HasId(events, id) ==> Overlay(base, events)[id] in events && Overlay(base, events)[id].id == id
  {
    if events != [] {
      OverlayAt(base, events[..|events| - 1], id);
      HasIdFront(events, id);
    }
  }

  /** Of several events with one ID the last one wins. */
  lemma {:induction false} OverlayLast(base: Records, events: seq<Connection>, k: int)
    requires IsLastWithId(events, k)
    ensures events[k].id in Overlay(base, events) && Overlay(base, events)[events[k].id] == events[k]
  {
    if k < |events| - 1 {
      OverlayLast(base, events[..|events| - 1], k);
    }
  }

  /** The merge keeps every undecided saved event the reply does not replace, and every event of the reply. */
  lemma MergeKeeps(saved: Inbox, incoming: Inbox, result: Inbox)
    requires IsMerge(saved, incoming, result)
    ensures result.cursor >= saved.cursor && result.cursor >= incoming.cursor
    ensures result.cursor == saved.cursor || result.cursor == incoming.cursor
    ensures forall k :: IsLastWithId(incoming.events, k) ==> incoming.events[k] in result.events
    ensures forall c :: c in saved.events && !Terminal(c.state) && !HasId(incoming.events, c.id) ==> HasId(result.events, c.id)
    ensures forall c :: c in result.events ==>
              c in incoming.events || (c in saved.events && !Terminal(c.state) && !HasId(incoming.events, c.id))
  {
    var live := KeepLive(saved.events);
    var base := Overlay(map[], live);
    var m := ById(saved, incoming);
    forall c | c in saved.events && !Terminal(c.state) && !HasId(incoming.events, c.id)
      ensures HasId(result.events, c.id)
    {
      var i :| 0 <= i < |live| && live[i] == c;
      OverlayAt(map[], live, c.id);
      OverlayAt(base, incoming.events, c.id);
      var j :| 0 <= j < |result.events| && result.events[j] == m[c.id];
    }
    forall k | IsLastWithId(incoming.events, k) ensures incoming.events[k] in result.events {
      OverlayLast(base, incoming.events, k);
    }
    forall c | c in result.events
      ensures c in incoming.events || (c in saved.events && !Terminal(c.state) && !HasId(incoming.events, c.id))
    {
      OverlayAt(map[], live, c.id);
      OverlayAt(base, incoming.events, c.id);
    }
  }

  // ----- which copy of a request survives -----

  ghost predicate DistinctIds(events: seq<Connection>) {
    forall i, j :: 0 <= i < j < |events| ==> events[i].id != events[j].id
  }

  /** For every request the merged inbox holds the copy with the largest cursor. */
  ghost predicate NewestKept(saved: Inbox, reply: Inbox, merged: Inbox) {
    forall c, d :: c in merged.events && (d in saved.events || d in reply.events) && c.id == d.id ==> d.cursor <= c.cursor
  }

  /** No saved copy of a request is newer than the reply's. */
  ghost predicate ReplyNotOlder(saved: Inbox, reply: Inbox) {
    forall s, k: nat :: s in saved.events && IsLastWithId(reply.events, k) && reply.events[k].id == s.id ==>
      s.cursor <= reply.events[k].cursor
  }

  lemma {:induction false} LastIndex(events: seq<Connection>, j: nat) returns (k: nat)
    requires j < |events|
    ensures j <= k && IsLastWithId(events, k) && events[k].id == events[j].id
    decreases |events| - j
  {
    k := j;
    if !IsLastWithId(events, j) {
      var next :| j < next < |events| && events[next].id == events[j].id;
      k := LastIndex(events, next);
    }
  }

  /** A save keeps the newest copies exactly if the reply is nowhere older than the inbox. */
  lemma NewestKeptExactly(saved: Inbox, reply: Inbox, merged: Inbox)
    requires IsMerge(saved, reply, merged) && StrictlyIncreasing(reply.events) && DistinctIds(saved.events)
    ensures NewestKept(saved, reply, merged) <==> ReplyNotOlder(saved, reply)
  {
    MergeKeeps(saved, reply, merged);
    if ReplyNotOlder(saved, reply) {
      forall c, d | c in merged.events && (d in saved.events || d in reply.events) && c.id == d.id
        ensures d.cursor <= c.cursor
      {
        NewestCopy(saved, reply, merged, c, d);
      }
    }
    if NewestKept(saved, reply, merged) {
      forall s, k: nat | s in saved.events && IsLastWithId(reply.events, k) && reply.events[k].id == s.id
        ensures s.cursor <= reply.events[k].cursor
      {
        assert reply.events[k] in merged.events;
      }
    }
  }

  lemma NewestCopy(saved: Inbox, reply: Inbox, merged: Inbox, c: Connection, d: Connection)
    requires IsMerge(saved, reply, merged) && StrictlyIncreasing(reply.events) && DistinctIds(saved.events)
    requires ReplyNotOlder(saved, reply)
    requires c in merged.events && (d in saved.events || d in reply.events) && c.id == d.id
    ensures d.cursor <= c.cursor
  {
    MergeKeeps(saved, reply, merged);
    if HasId(reply.events, c.id) {
      var j :| 0 <= j < |reply.events| && reply.events[j].id == c.id;
      var k := LastIndex(reply.events, j);
      SameCopy(merged, reply.events[k], c);
      if d in reply.events {
        var i :| 0 <= i < |reply.events| && reply.events[i] == d;
        assert i <= k;
      }
    }
  }

  lemma SameCopy(merged: Inbox, a: Connection, b: Connection)
    requires forall i, j :: 0 <= i < j < |merged.events| ==> merged.events[i].id != merged.events[j].id
    requires a in merged.events && b in merged.events && a.id == b.id
    ensures a == b
  {
  }

  // ----- an inbox that cannot be read back -----

  /** saveInbox ignores a read error and merges with an empty inbox. */
  function ReadBack(saved: Inbox, readable: bool): Inbox {
    if readable then saved else EMPTY_INBOX
  }

  /** What an unreadable inbox costs: the reply alone is left, so exactly the requests it does not name are lost. */
  lemma UnreadableSave(saved: Inbox, reply: Inbox, merged: Inbox)
    requires IsMerge(ReadBack(saved, false), reply, merged)
    ensures merged.cursor < saved.cursor <==> reply.cursor < saved.cursor
    ensures forall c :: c in saved.events ==> (HasId(merged.events, c.id) <==> HasId(reply.events, c.id))
  {
    MergeKeeps(EMPTY_INBOX, reply, merged);
    forall c | c in saved.events ensures HasId(merged.events, c.id) <==> HasId(reply.events, c.id) {
      if HasId(reply.events, c.id) {
        var j :| 0 <= j < |reply.events| && reply.events[j].id == c.id;
        var k := LastIndex(reply.events, j);
        var i :| 0 <= i < |merged.events| && merged.events[i] == reply.events[k];
      }
      if HasId(merged.events, c.id) {
        var i :| 0 <= i < |merged.events| && merged.events[i].id == c.id;
        assert merged.events[i] in reply.events;
      }
    }
  }
}
