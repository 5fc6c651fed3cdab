/**
 The node's side of discovery as its workers run it: the latest-wins channel of
 runHeartbeatWorker, the loop body of runDiscoveryWorker and fetchDiscovery.
 */
module DiscoveryWorker {
  import opened Prelude
  import opened Topology
  import opened Discovery

  class DiscoveryNode {
    var slot: Option<nat>
    var current: nat
    var recorded: nat
    var peers: seq<Node>
    var failed: bool
    ghost var latest: Option<nat>
    ghost var savedAt: nat
    ghost var fetch: Fetch

    ghost function View(): Worker
      reads this
    {
      Worker(slot, latest, current, recorded, peers, savedAt, fetch, failed)
    }

    constructor ()
      ensures View() == FRESH
    {
      slot, current, recorded, peers, failed := None, 0, 0, [], false;
      latest, savedAt, fetch := None, 0, Idle;
    }

    /**
     The three selects that publish a revision. The reader may empty the channel before any of
     them; only the heartbeat worker fills it.
     */
    method Publish(revision: nat, emptiedBefore: bool, emptiedBetween: bool)
      modifies this`slot, this`latest
      ensures slot == latest == Some(revision)
    {
      if emptiedBefore {
        slot := None;
      }
      if slot == None {
        slot := Some(revision);
      } else {
        if emptiedBetween {
          slot := None;
        }
        if slot.Some? {
          slot := None;
        }
        if slot == None {
          slot := Some(revision);
        }
      }
      latest := Some(revision);
    }

    /** The receive at the head of the loop; None when the revision is already applied. */
    method Take() returns (expected: Option<nat>)
      requires slot.Some? && fetch == Idle
      modifies this`slot, this`fetch
      ensures View() == Taken(old(View()))
      ensures expected == if old(slot).value == current then None else old(slot)
      ensures slot == None && fetch == if expected == None then Idle else Asking(expected.value, current)
    {
      expected := slot;
      slot := None;
      if expected == Some(current) {
        return None;
      }
      fetch := Asking(expected.value, current);
    }

    /** fetchDiscovery once the response is there; the flag says whether peers.json can be read or written. */
    method Fetched(expected: nat, answer: Reply, fileOk: bool) returns (ok: bool)
      requires fetch == Answered(expected, answer)
      modifies this`peers, this`savedAt, this`fetch, this`failed
      ensures View() == Received(old(View()), fileOk)
      ensures ok <==> fetch == Saved(expected)
      ensures ok <==> (expected == 0 || answer.revision >= expected) && fileOk
      ensures peers == if ok && answer.changed then answer.nodes else old(peers)
      ensures !ok ==> fetch == Idle && failed
    {
      ok := false;
      if (expected != 0 && answer.revision < expected) || !fileOk {
        fetch, failed := Idle, true;
        return;
      }
      if answer.changed {
        peers, savedAt := answer.nodes, answer.revision;
      }
      fetch := Saved(expected);
      ok := true;
    }

    method RecordRevision(expected: nat, written: bool)
      requires fetch == Saved(expected)
      modifies this`current, this`recorded, this`fetch, this`failed
      ensures View() == Recorded(old(View()), written)
      ensures current == expected && recorded == (if written then expected else old(recorded)) && !failed && fetch == Idle
    {
      current := expected;
      if written {
        recorded := expected;
      }
      fetch, failed := Idle, false;
    }
  }
}
