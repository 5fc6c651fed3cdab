/** reverseConnectionBroker as the relay's goroutines change it under its mutex. */
module RelayBroker {
  import opened Prelude
  import opened ReverseBroker

  class Broker {
    var waiting: map<string, nat>
    var expectations: seq<Expectation>
    var closed: set<nat>

    ghost function View(): Table
      reads this
    {
      Table(waiting, expectations, closed)
    }

    ghost predicate Valid()
      reads this
    {
      TableOk(View())
    }

    constructor ()
      ensures Valid() && View() == EMPTY_TABLE
    {
      waiting, expectations, closed := map[], [], {};
    }

    method Expect(token: string, target: string, service: string) returns (h: nat)
      requires Valid()
      modifies this
      ensures Valid() && View() == ReverseBroker.Expect(old(View()), token, target, service)
      ensures h == |old(expectations)| && h !in closed
    {
      h := |expectations|;
      expectations := expectations + [Expectation(token, target, service)];
      waiting := waiting[token := h];
    }

    /** A taker gets the expectation of its token only for the awaited target and service. */
    method Take(token: string, target: string, service: string) returns (taken: Option<nat>)
      requires Valid()
      modifies this`waiting
      ensures Valid() && View() == ReverseBroker.Take(old(View()), token, target, service)
      ensures taken == Matching(old(View()), token, target, service)
      ensures taken.Some? ==> expectations[taken.value] == Expectation(token, target, service) && token !in waiting
    {
      if token !in waiting {
        return None;
      }
      var h := waiting[token];
      if expectations[h].target != target || expectations[h].service != service {
        return None;
      }
      waiting := waiting - {token};
      taken := Some(h);
    }

    /** The first half of the cancel closure; it closes the channel once. */
    method CloseDone(h: nat)
      requires Valid() && h < |expectations|
      modifies this`closed
      ensures Valid() && View() == ReverseBroker.CloseDone(old(View()), h)
    {
      if h !in closed {
        closed := closed + {h};
      }
    }

    /** The second half, under the mutex. */
    method Withdraw(h: nat)
      requires Valid() && h < |expectations|
      modifies this`waiting
      ensures Valid() && View() == ReverseBroker.Withdraw(old(View()), h)
      ensures forall token :: token in old(waiting) && old(waiting[token]) != h ==> token in waiting
      ensures forall token :: token in waiting ==> waiting[token] != h
    {
      var token := expectations[h].token;
      if token in waiting && waiting[token] == h {
        waiting := waiting - {token};
      }
    }
  }
}
