/**
 The replay guards: the nonce table of verifySignatureLocked with the nonce loop of cleanupLocked
 in internal/app/coordinator_nodes.go, and the one of the relay's verify in
 internal/app/relay_server.go. Signature checking is a given answer.
 */
module Nonces {
  import opened Prelude

  const WINDOW: int := 2 * MINUTE

  type Table = map<string, Time>

  /** A signed request; nonce and stamp are covered by the signature. */
  datatype Signed = Signed(nonce: string, stamp: Time, signatureOk: bool)

  predicate Fresh(stamp: Time, now: Time) {
    now - WINDOW <= stamp <= now + WINDOW
  }

  predicate Accepts(t: Table, r: Signed, now: Time) {
    r.nonce != "" && Fresh(r.stamp, now) && r.signatureOk && !(r.nonce in t && t[r.nonce] > now)
  }

  function Verified(t: Table, r: Signed, now: Time): Table {
    if Accepts(t, r, now) then t[r.nonce := now + WINDOW] else t
  }

  function Sweep(t: Table, now: Time): Table {
    map nonce | nonce in t && t[nonce] >= now :: t[nonce]
  }

  /** Signed, named, and stamped within two minutes either way. */
  predicate Genuine(r: Signed, now: Time) {
    r.signatureOk && r.nonce != "" && now - 2 * MINUTE <= r.stamp <= now + 2 * MINUTE
  }

  class Guard {
    var nonces: Table

    constructor ()
      ensures nonces == map[]
    {
      nonces := map[];
    }

    method SweepNonces(now: Time)
      modifies this
      ensures nonces == Sweep(old(nonces), now)
      ensures forall n, until :: (n, until) in nonces.Items <==> (n, until) in old(nonces).Items && until >= now
    {
      ghost var before := nonces;
      var remaining := nonces.Keys;
      while remaining != {}
        invariant remaining <= before.Keys
        invariant forall n :: n in before ==> (n in nonces <==> n in remaining || before[n] >= now)
        invariant forall n :: n in nonces ==> n in before && nonces[n] == before[n]
        decreases |remaining|
      {
        var nonce :| nonce in remaining;
        remaining := remaining - {nonce};
        if nonces[nonce] < now {
          nonces := nonces - {nonce};
        }
      }
    }

    /** verifySignatureLocked: the table is consulted before the signature. */
    method VerifySignature(r: Signed, now: Time) returns (ok: bool)
      modifies this
      ensures ok == Accepts(old(nonces), r, now) && nonces == Verified(old(nonces), r, now)
      ensures ok <==> Genuine(r, now) && !(r.nonce in old(nonces) && old(nonces)[r.nonce] > now)
      ensures nonces == if ok then old(nonces)[r.nonce := now + 2 * MINUTE] else old(nonces)
    {
      ok := false;
      if r.nonce == "" || r.stamp < now - WINDOW || r.stamp > now + WINDOW {
        return;
      }
      if r.nonce in nonces && nonces[r.nonce] > now {
        return;
      }
      if !r.signatureOk {
        return;
      }
      nonces := nonces[r.nonce := now + WINDOW];
      ok := true;
    }

    /** The relay's verify: a valid signature sweeps the table and then consults it. */
    method VerifyHandshake(r: Signed, now: Time) returns (ok: bool)
      modifies this
      ensures ok == Accepts(old(nonces), r, now)
      ensures nonces == if r.nonce != "" && Fresh(r.stamp, now) && r.signatureOk
                        then Verified(Sweep(old(nonces), now), r, now) else old(nonces)
      ensures ok <==> Genuine(r, now) && !(r.nonce in old(nonces) && old(nonces)[r.nonce] > now)
      ensures ok ==> r.nonce in nonces && nonces[r.nonce] == now + 2 * MINUTE
      ensures forall n :: n in nonces && (n != r.nonce || !ok) ==> n in old(nonces) && nonces[n] == old(nonces)[n]
      ensures forall n :: n in old(nonces) && old(nonces)[n] >= now ==> n in nonces
      ensures ok ==> forall n :: n in nonces ==> nonces[n] >= now
    {
      ok := false;
      if r.nonce == "" || r.stamp < now - WINDOW || r.stamp > now + WINDOW || !r.signatureOk {
        return;
      }
      SweepNonces(now);
      if r.nonce in nonces && nonces[r.nonce] > now {
        return;
      }
      nonces := nonces[r.nonce := now + WINDOW];
      ok := true;
    }
  }

  // ----- runs: verifications with sweeps anywhere between them -----

  datatype Event = Verify(request: Signed, now: Time) | SweepAt(now: Time)

  predicate Ordered(events: seq<Event>) {
    forall i, j :: 0 <= i < j < |events| ==> events[i].now <= events[j].now
  }

  function After(events: seq<Event>): Table {
    if events == [] then map[]
    else
      match events[|events| - 1]
      case Verify(r, now) => Verified(After(events[..|events| - 1]), r, now)
      case SweepAt(now) => Sweep(After(events[..|events| - 1]), now)
  }

  predicate AcceptedAt(events: seq<Event>, k: nat) {
    k < |events| && events[k].Verify? && Accepts(After(events[..k]), events[k].request, events[k].now)
  }

  /** An accepted nonce stays in the table until its two minutes have passed. */
  lemma {:induction false} Remembered(events: seq<Event>, i: nat, k: nat)
    requires Ordered(events) && i < k <= |events| && AcceptedAt(events, i)
    ensures var t := After(events[..k]);
            (events[i].request.nonce in t && t[events[i].request.nonce] >= events[i].now + WINDOW) ||
            events[k - 1].now > events[i].now + WINDOW
  {
    assert events[..k][..k - 1] == events[..k - 1];
    if i < k - 1 {
      Remembered(events, i, k - 1);
    }
  }

  /** What the table holds comes from an acceptance. */
  lemma {:induction false} EntryWasAccepted(events: seq<Event>, k: nat, nonce: string) returns (i: nat)
    requires k <= |events| && nonce in After(events[..k])
    ensures i < k && AcceptedAt(events, i) && events[i].request.nonce == nonce
    ensures After(events[..k])[nonce] == events[i].now + WINDOW
  {
    assert events[..k][..k - 1] == events[..k - 1];
    if AcceptedAt(events, k - 1) && events[k - 1].request.nonce == nonce {
      i := k - 1;
    } else {
      i := EntryWasAccepted(events, k - 1, nonce);
    }
  }

  /** An acceptance of this nonce before event k and less than two minutes back from it. */
  ghost predicate AcceptedLately(events: seq<Event>, k: nat, nonce: string)
    requires k < |events|
  {
    exists i: nat :: i < k && AcceptedAt(events, i) && events[i].request.nonce == nonce && events[k].now - events[i].now < 2 * MINUTE
  }

  /** With sweeps anywhere between, a request is accepted exactly if it is genuine and its nonce was not accepted lately. */
  lemma AcceptedExactly(events: seq<Event>, k: nat)
    requires Ordered(events) && k < |events| && events[k].Verify?
    ensures AcceptedAt(events, k) <==>
            Genuine(events[k].request, events[k].now) && !AcceptedLately(events, k, events[k].request.nonce)
  {
    var r, now, t := events[k].request, events[k].now, After(events[..k]);
    if AcceptedLately(events, k, r.nonce) {
      var i: nat :| i < k && AcceptedAt(events, i) && events[i].request.nonce == r.nonce && now - events[i].now < 2 * MINUTE;
      Remembered(events, i, k);
    }
    if r.nonce in t && t[r.nonce] > now {
      var i := EntryWasAccepted(events, k, r.nonce);
      assert AcceptedLately(events, k, r.nonce);
    }
  }

  /** A request that is not accepted leaves the table as it was. */
  lemma RefusedLeavesTable(events: seq<Event>, k: nat)
    requires k < |events| && events[k].Verify? && !AcceptedAt(events, k)
    ensures After(events[..k + 1]) == After(events[..k])
  {
    assert events[..k + 1][..k] == events[..k];
  }

  /** Two acceptances of one nonce are at least two minutes apart. */
  lemma AcceptancesApart(events: seq<Event>, i: nat, j: nat)
    requires Ordered(events) && i < j && AcceptedAt(events, i) && AcceptedAt(events, j)
    requires events[i].request.nonce == events[j].request.nonce
    ensures events[j].now - events[i].now >= WINDOW
  {
    Remembered(events, i, j);
  }

  /** A request stamped strictly before its arrival is accepted at most once. */
  lemma AcceptedOnce(events: seq<Event>, i: nat, j: nat)
    requires Ordered(events) && i < j < |events| && AcceptedAt(events, i)
    requires events[j].Verify? && events[j].request == events[i].request
    requires events[i].request.stamp < events[i].now
    ensures !AcceptedAt(events, j)
  {
    if AcceptedAt(events, j) {
      AcceptancesApart(events, i, j);
    }
  }

  /** A run that goes on after its last event with a copy of that event's request. */
  predicate Replays(events: seq<Event>, later: Time)
    requires events != [] && events[|events| - 1].Verify?
  {
    var last := events[|events| - 1];
    last.now <= later && Accepts(After(events), last.request, later)
  }

  /** Exactly the requests stamped no earlier than their arrival can be accepted again. */
  lemma ReplayPossible(events: seq<Event>)
    requires Ordered(events) && events != [] && AcceptedAt(events, |events| - 1)
    ensures (exists later :: Replays(events, later)) <==>
            events[|events| - 1].request.stamp >= events[|events| - 1].now
  {
    var last := events[|events| - 1];
    assert After(events)[last.request.nonce] == last.now + WINDOW;
    if last.request.stamp >= last.now {
      assert Replays(events, last.now + WINDOW);
    }
  }
}
