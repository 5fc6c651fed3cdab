/** Small vocabulary shared by every part of the model. */
module Prelude {

  datatype Option<+T> = None | Some(value: T)

  /** Instants and durations, in nanoseconds. */
  type Time = int

  const SECOND: int := 1_000_000_000
  const MINUTE: int := 60 * SECOND
  const DAY: int := 24 * 60 * MINUTE

  /** Reading a missing key of a Go map yields the zero value. */
  function Lookup(m: map<string, nat>, key: string): nat {
    if key in m then m[key] else 0
  }

  function LookupSet<T>(m: map<string, set<T>>, key: string): set<T> {
    if key in m then m[key] else {}
  }

  function LookupSeq<T>(m: map<string, seq<T>>, key: string): seq<T> {
    if key in m then m[key] else []
  }

  /** The length in bytes of the UTF-8 form of a string, which is what Go's len counts. */
  function ByteLength(s: string): nat {
    if s == "" then 0 else ByteLength(s[..|s| - 1]) + CharLength(s[|s| - 1])
  }

  function CharLength(c: char): nat {
    if c as int < 0x80 then 1 else if c as int < 0x800 then 2 else if c as int < 0x1_0000 then 3 else 4
  }

  /** One arbitrary order in which a `range` loop visits the keys of a map. */
  ghost predicate IsOrder(order: seq<string>, keys: set<string>) {
    && (forall i, j :: 0 <= i < j < |order| ==> order[i] != order[j])
    && (forall key :: key in order <==> key in keys)
  }

  ghost function Elements<T>(s: seq<T>): set<T> {
    set x | x in s
  }

  lemma OrderPrefix(order: seq<string>)
    requires forall i, j :: 0 <= i < j < |order| ==> order[i] != order[j]
    requires |order| > 0
    ensures order[|order| - 1] !in order[..|order| - 1]
    ensures Elements(order) == Elements(order[..|order| - 1]) + {order[|order| - 1]}
  {
    var front := order[..|order| - 1];
    forall x | x in Elements(order)
      ensures x in Elements(front) + {order[|order| - 1]}
    {
      var i :| 0 <= i < |order| && order[i] == x;
      if i < |order| - 1 {
        assert front[i] == x;
      }
    }
  }

  lemma OrderElements(order: seq<string>, keys: set<string>)
    requires IsOrder(order, keys)
    ensures Elements(order) == keys
  {
  }

  /** A range loop visits one more key. */
  lemma OrderVisit(keys: set<string>, remaining: set<string>, order: seq<string>, key: string)
    requires key in keys && key !in remaining && remaining <= keys && IsOrder(order, keys - (remaining + {key}))
    ensures IsOrder(order + [key], keys - remaining)
    ensures (order + [key])[..|order|] == order
  {
    var next := order + [key];
    assert forall k :: k in next <==> k in order || k == key;
  }

  lemma SameElements<T>(a: seq<T>, b: seq<T>)
    requires multiset(a) == multiset(b)
    ensures forall x :: x in a <==> x in b
  {
    forall x ensures x in a <==> x in b {
      assert x in a <==> x in multiset(a);
      assert x in b <==> x in multiset(b);
    }
  }

  ghost predicate DistinctBy<T(!new), K(!new)>(s: seq<T>, key: T -> K) {
    forall i, j :: 0 <= i < j < |s| ==> key(s[i]) != key(s[j])
  }

  /** Elements with distinct keys keep them under a permutation. */
  lemma DistinctKept<T(!new), K(!new)>(a: seq<T>, b: seq<T>, key: T -> K)
    requires multiset(a) == multiset(b) && DistinctBy(a, key)
    ensures DistinctBy(b, key)
  {
    SameElements(a, b);
    forall i, j | 0 <= i < j < |b| ensures key(b[i]) != key(b[j]) {
      assert b[i] in a && b[j] in a;
      if b[i] == b[j] {
        assert b == b[..i] + [b[i]] + b[i + 1..j] + [b[i]] + b[j + 1..];
        assert multiset(b)[b[i]] >= 2;
        OccursOnce(a, b[i], key);
      }
    }
  }

  lemma OccursOnce<T(!new), K(!new)>(a: seq<T>, x: T, key: T -> K)
    requires x in a && DistinctBy(a, key)
    ensures multiset(a)[x] == 1
  {
    var k :| 0 <= k < |a| && a[k] == x;
    assert a == a[..k] + [x] + a[k + 1..];
    assert x !in a[..k] && x !in a[k + 1..];
  }

  lemma SubsetSize<T>(small: set<T>, large: set<T>)
    requires small <= large
    ensures |small| <= |large|
  {
    assert large == small + (large - small);
  }
}
