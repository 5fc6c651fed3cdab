/**
 The relay's table of reverse connections it waits for: reverseConnectionBroker of
 internal/app/relay_types.go. An expectation is a number; its `done` channel is closed when the
 number is in `closed`.
 */
module ReverseBroker {
  import opened Prelude

  datatype Expectation = Expectation(token: string, target: string, service: string)

  datatype Table = Table(waiting: map<string, nat>, expectations: seq<Expectation>, closed: set<nat>)

  const EMPTY_TABLE := Table(map[], [], {})

  function Expect(b: Table, token: string, target: string, service: string): Table {
    b.(waiting := b.waiting[token := |b.expectations|],
       expectations := b.expectations + [Expectation(token, target, service)])
  }

  function Matching(b: Table, token: string, target: string, service: string): Option<nat> {
    if token in b.waiting && b.waiting[token] < |b.expectations| &&
       b.expectations[b.waiting[token]].target == target && b.expectations[b.waiting[token]].service == service
    then Some(b.waiting[token]) else None
  }

  function Take(b: Table, token: string, target: string, service: string): Table {
    if Matching(b, token, target, service).Some? then b.(waiting := b.waiting - {token}) else b
  }

  function CloseDone(b: Table, h: nat): Table {
    b.(closed := b.closed + {h})
  }

  /** Remove the registration of `h`, unless a later expectation took its place. */
  function Withdraw(b: Table, h: nat): Table {
    if h < |b.expectations| && b.expectations[h].token in b.waiting && b.waiting[b.expectations[h].token] == h
    then b.(waiting := b.waiting - {b.expectations[h].token}) else b
  }

  ghost predicate TableOk(b: Table) {
    && (forall token :: token in b.waiting ==>
          b.waiting[token] < |b.expectations| && b.expectations[b.waiting[token]].token == token)
    && (forall h :: h in b.closed ==> h < |b.expectations|)
  }
}
