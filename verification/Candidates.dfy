/**
 Direct candidates: the coordinator's managedDirectCandidates of
 internal/app/coordinator_nodes.go and a node's own localDirectCandidates of
 internal/app/coordinator_client.go. Address syntax is a parameter.
 */
module Candidates {
  import opened Prelude
  import opened Topology
  import opened Sorting

  const MAX_CANDIDATES: nat := 16

  // ----- the order of strings -----

  /** Go compares the bytes; UTF-8 keeps the order of the characters. */
  predicate Less(a: string, b: string) {
    b != "" && (a == "" || a[0] < b[0] || (a[0] == b[0] && Less(a[1..], b[1..])))
  }

  lemma {:induction false} LessTransitive(a: string, b: string, c: string)
    requires Less(a, b) && Less(b, c)
    ensures Less(a, c)
  {
    if a != "" && a[0] == b[0] && b[0] == c[0] {
      LessTransitive(a[1..], b[1..], c[1..]);
    }
  }

  lemma {:induction false} LessTotal(a: string, b: string)
    ensures Less(a, b) || Less(b, a) || a == b
    ensures !(Less(a, b) && Less(b, a)) && !Less(a, a)
  {
    if a != "" && b != "" {
      LessTotal(a[1..], b[1..]);
      LessTotal(a[1..], a[1..]);
      assert a == [a[0]] + a[1..] && b == [b[0]] + b[1..];
    } else if a != "" {
      LessTotal(a[1..], a[1..]);
    }
  }

  lemma NotLessTransitive(a: string, b: string, c: string)
    requires !Less(b, a) && !Less(c, b)
    ensures !Less(c, a)
  {
    LessTotal(a, b);
    LessTotal(b, c);
    LessTotal(a, c);
    if Less(a, b) && Less(b, c) {
      LessTransitive(a, b, c);
    }
  }

  ghost predicate Sorted(keys: seq<string>) {
    forall i, j :: 0 <= i < j < |keys| ==> !Less(keys[j], keys[i])
  }

  ghost predicate Ascending(keys: seq<string>) {
    forall i, j :: 0 <= i < j < |keys| ==> Less(keys[i], keys[j])
  }

  lemma HasElement(a: seq<string>)
    ensures a == [] || exists x :: x in a
  {
    if a != [] {
      assert a[0] in a;
    }
  }

  /** A strictly ascending sequence is determined by its elements. */
  lemma {:induction false} AscendingUnique(a: seq<string>, b: seq<string>)
    requires Ascending(a) && Ascending(b) && (forall x :: x in a <==> x in b)
    ensures a == b
  {
    if a == [] || b == [] {
      HasElement(a);
      HasElement(b);
    } else {
      var m, n := |a| - 1, |b| - 1;
      LastEqual(a, b);
      assert a == a[..m] + [a[m]] && b == b[..n] + [b[n]];
      LessTotal(a[m], a[m]);
      forall x ensures x in a[..m] <==> x in b[..n] {
        assert x in a[..m] <==> x in a && x != a[m];
        assert x in b[..n] <==> x in b && x != b[n];
      }
      AscendingUnique(a[..m], b[..n]);
    }
  }

  lemma LastEqual(a: seq<string>, b: seq<string>)
    requires Ascending(a) && Ascending(b) && (forall x :: x in a <==> x in b) && a != [] && b != []
    ensures a[|a| - 1] == b[|b| - 1]
  {
    var x, y := a[|a| - 1], b[|b| - 1];
    assert x in b && y in a;
    var i :| 0 <= i < |a| && a[i] == y;
    var j :| 0 <= j < |b| && b[j] == x;
    LessTotal(x, y);
  }

  // ----- sorting -----

  function Keys<T>(items: seq<T>, key: T -> string): (r: seq<string>)
    ensures |r| == |items| && forall i :: 0 <= i < |r| ==> r[i] == key(items[i])
  {
    seq(|items|, i requires 0 <= i < |items| => key(items[i]))
  }

  /** sort.Slice and sort.Strings by a string key. */
  method SortBy<T(!new)>(items: seq<T>, key: T -> string) returns (r: seq<T>)
    ensures Sorted(Keys(r, key)) && multiset(r) == multiset(items)
  {
    var before := (a: T, b: T) => Less(key(a), key(b));
    KeysOrder(key, before);
    r := Sort(items, before);
  }

  lemma KeysOrder<T(!new)>(key: T -> string, before: (T, T) -> bool)
    requires forall a, b :: before(a, b) == Less(key(a), key(b))
    ensures IsOrdering(before)
  {
    forall a, b | before(a, b) ensures !before(b, a) {
      LessTotal(key(a), key(b));
    }
    forall a, b, c | !before(b, a) && !before(c, b) ensures !before(c, a) {
      NotLessTransitive(key(a), key(b), key(c));
    }
  }

  // ----- the coordinator's candidates -----

  function AddressOf(c: Candidate): string {
    c.address
  }

  function Addresses(candidates: seq<Candidate>): (r: seq<string>)
    ensures |r| == |candidates| && forall i :: 0 <= i < |r| ==> r[i] == candidates[i].address
  {
    Keys(candidates, AddressOf)
  }

  /** Each published address once, in ascending order, leased until `expiry`. */
  ghost predicate IsManaged(input: seq<Candidate>, expiry: Time, output: seq<Candidate>) {
    && Ascending(Addresses(output))
    && (forall a :: a in Addresses(output) <==> a in Addresses(input))
    && (forall i :: 0 <= i < |output| ==> output[i].expiresAt == expiry)
  }

  predicate Acceptable(input: seq<Candidate>, valid: string -> bool) {
    |input| <= MAX_CANDIDATES && forall i :: 0 <= i < |input| ==> valid(input[i].address)
  }

  method ManagedCandidates(input: seq<Candidate>, expiry: Time, valid: string -> bool) returns (r: Option<seq<Candidate>>)
    ensures r.Some? <==> Acceptable(input, valid)
    ensures r.Some? ==> IsManaged(input, expiry, r.value)
  {
    if |input| > MAX_CANDIDATES {
      return None;
    }
    var seen: set<string>, output: seq<Candidate> := {}, [];
    for i := 0 to |input|
      invariant forall j :: 0 <= j < i ==> valid(input[j].address)
      invariant forall a :: a in seen <==> a in Addresses(input[..i])
      invariant Listed(output, seen, expiry)
    {
      if !valid(input[i].address) {
        return None;
      }
      assert Addresses(input[..i + 1]) == Addresses(input[..i]) + [input[i].address];
      if input[i].address !in seen {
        seen := seen + {input[i].address};
        output := output + [Candidate(input[i].address, expiry)];
      }
    }
    assert input[..|input|] == input;
    var sorted := SortBy(output, AddressOf);
    SortedIsManaged(input, output, sorted, seen, expiry);
    r := Some(sorted);
  }

  ghost predicate Listed(output: seq<Candidate>, seen: set<string>, expiry: Time) {
    && (forall i :: 0 <= i < |output| ==> output[i].address in seen && output[i].expiresAt == expiry)
    && (forall i, j :: 0 <= i < j < |output| ==> output[i].address != output[j].address)
    && (forall a :: a in seen ==> Candidate(a, expiry) in output)
  }

  lemma SortedIsManaged(input: seq<Candidate>, output: seq<Candidate>, sorted: seq<Candidate>, seen: set<string>, expiry: Time)
    requires Listed(output, seen, expiry) && (forall a :: a in seen <==> a in Addresses(input))
    requires Sorted(Addresses(sorted)) && multiset(sorted) == multiset(output)
    ensures IsManaged(input, expiry, sorted)
  {
    var keys := Addresses(sorted);
    SameElements(sorted, output);
    assert forall c :: c in sorted ==> c in multiset(sorted);
    assert DistinctBy(output, AddressOf);
    DistinctKept(output, sorted, AddressOf);
    forall i, j | 0 <= i < j < |keys| ensures Less(keys[i], keys[j]) {
      LessTotal(keys[i], keys[j]);
      assert sorted[i] in output && sorted[j] in output;
    }
    forall a ensures a in keys <==> a in seen {
      if a in keys {
        var i :| 0 <= i < |sorted| && sorted[i].address == a;
        assert sorted[i] in output;
      }
      if a in seen {
        assert Candidate(a, expiry) in sorted;
        var i :| 0 <= i < |sorted| && sorted[i] == Candidate(a, expiry);
        assert keys[i] == a;
      }
    }
    forall i | 0 <= i < |sorted| ensures sorted[i].expiresAt == expiry {
      assert sorted[i] in output;
    }
  }

  /** The order and repetition of what a node publishes do not matter. */
  lemma ManagedUnique(input: seq<Candidate>, other: seq<Candidate>, expiry: Time, a: seq<Candidate>, b: seq<Candidate>)
    requires IsManaged(input, expiry, a) && IsManaged(other, expiry, b)
    requires forall x :: x in Addresses(input) <==> x in Addresses(other)
    ensures a == b
  {
    AscendingUnique(Addresses(a), Addresses(b));
    forall i | 0 <= i < |a| ensures a[i] == b[i] {
      assert a[i].address == Addresses(a)[i] == Addresses(b)[i];
    }
  }

  // ----- a node's own candidates -----

  ghost predicate AllBelow(keys: seq<string>, a: string) {
    forall i :: 0 <= i < |keys| ==> Less(keys[i], a)
  }

  /** The smallest of the given addresses, at most MAX_CANDIDATES of them, ascending. */
  ghost predicate IsLocal(addresses: seq<string>, output: seq<string>) {
    && Ascending(output) && |output| <= MAX_CANDIDATES
    && (forall a :: a in output ==> a in addresses)
    && (forall a :: a in addresses && a !in output ==> |output| == MAX_CANDIDATES && AllBelow(output, a))
  }

  /** The tail of localDirectCandidates; `addresses` are the valid interface addresses in any order. */
  method LocalCandidates(addresses: seq<string>) returns (output: seq<string>)
    ensures IsLocal(addresses, output)
  {
    var sorted := SortBy(addresses, (s: string) => s);
    assert Keys(sorted, (s: string) => s) == sorted;
    SameElements(sorted, addresses);
    output := [];
    for i := 0 to |sorted|
      invariant IsLocal(sorted[..i], output)
      invariant i > 0 ==> output != []
      invariant i > 0 && |output| < MAX_CANDIDATES ==> output[|output| - 1] == sorted[i - 1]
    {
      LocalNext(sorted, i, output);
      if |output| == MAX_CANDIDATES || (|output| > 0 && output[|output| - 1] == sorted[i]) {
        continue;
      }
      output := output + [sorted[i]];
    }
    assert sorted[..|sorted|] == sorted;
  }

  lemma LocalNext(sorted: seq<string>, i: nat, output: seq<string>)
    requires Sorted(sorted) && i < |sorted| && IsLocal(sorted[..i], output)
    requires i > 0 ==> output != []
    requires i > 0 && |output| < MAX_CANDIDATES ==> output[|output| - 1] == sorted[i - 1]
    ensures IsLocal(sorted[..i + 1],
                    if |output| == MAX_CANDIDATES || (|output| > 0 && output[|output| - 1] == sorted[i]) then output
                    else output + [sorted[i]])
  {
    assert sorted[..i + 1] == sorted[..i] + [sorted[i]];
    forall j | 0 <= j < |output| ensures output[j] == sorted[i] || Less(output[j], sorted[i]) {
      assert output[j] in sorted[..i];
      var k :| 0 <= k < i && sorted[k] == output[j];
      LessTotal(output[j], sorted[i]);
    }
    if i == 0 {
      HasElement(output);
    } else if |output| < MAX_CANDIDATES && output[|output| - 1] != sorted[i] {
      forall j | 0 <= j < |output| ensures Less(output[j], sorted[i]) {
        LessTotal(output[|output| - 1], sorted[i]);
      }
    } else {
      assert sorted[i] !in output ==> AllBelow(output, sorted[i]);
    }
  }

  /** What a node publishes does not depend on the order of its interfaces. */
  lemma LocalUnique(addresses: seq<string>, other: seq<string>, a: seq<string>, b: seq<string>)
    requires (forall x :: x in addresses <==> x in other) && IsLocal(addresses, a) && IsLocal(other, b)
    ensures a == b
  {
    LocalIncluded(addresses, a, b);
    LocalIncluded(other, b, a);
    AscendingUnique(a, b);
  }

  lemma LocalIncluded(addresses: seq<string>, a: seq<string>, b: seq<string>)
    requires IsLocal(addresses, a) && IsLocal(addresses, b)
    ensures forall x :: x in a ==> x in b
  {
    forall x | x in a ensures x in b {
      if x !in b {
        forall y | y in b ensures y in a {
          LessTotal(x, y);
        }
        AscendingSize(a);
        AscendingSize(b);
        SubsetSize(Elements(b), Elements(a) - {x});
      }
    }
  }

  lemma {:induction false} AscendingSize(a: seq<string>)
    requires Ascending(a)
    ensures |Elements(a)| == |a|
  {
    if a != [] {
      AscendingSize(a[..|a| - 1]);
      forall i, j | 0 <= i < j < |a| ensures a[i] != a[j] {
        LessTotal(a[i], a[j]);
      }
      assert a == a[..|a| - 1] + [a[|a| - 1]];
      assert Elements(a) == Elements(a[..|a| - 1]) + {a[|a| - 1]};
    }
  }

  /** The coordinator stores a node's own list as it is. */
  lemma LocalStoredUnchanged(addresses: seq<string>, published: seq<Candidate>, expiry: Time, stored: seq<Candidate>)
    requires IsLocal(addresses, Addresses(published)) && IsManaged(published, expiry, stored)
    ensures |published| <= MAX_CANDIDATES && Addresses(stored) == Addresses(published)
  {
    AscendingUnique(Addresses(stored), Addresses(published));
  }
}
