/** sort.Slice: any permutation in which nothing comes before an element it should follow. */
module Sorting {
  import opened Prelude

  /** A strict weak order: what "not after" relates is transitive. */
  ghost predicate IsOrdering<T(!new)>(before: (T, T) -> bool) {
    && (forall a, b :: before(a, b) ==> !before(b, a))
    && (forall a, b, c :: !before(b, a) && !before(c, b) ==> !before(c, a))
  }

  ghost predicate SortedBy<T>(s: seq<T>, before: (T, T) -> bool) {
    forall i, j :: 0 <= i < j < |s| ==> !before(s[j], s[i])
  }

  method InsertSorted<T(!new)>(s: seq<T>, x: T, before: (T, T) -> bool) returns (r: seq<T>)
    requires IsOrdering(before) && SortedBy(s, before)
    ensures SortedBy(r, before) && multiset(r) == multiset(s) + multiset{x}
  {
    var k := Place(s, x, before);
    r := s[..k] + [x] + s[k..];
    SpliceSorted(s, x, k, before);
    SpliceElements(s, x, k);
  }

  /** The end of the elements that need not come after x. */
  method Place<T(!new)>(s: seq<T>, x: T, before: (T, T) -> bool) returns (k: nat)
    ensures k <= |s| && (k > 0 ==> !before(x, s[k - 1]))
    ensures forall i :: k <= i < |s| ==> before(x, s[i])
  {
    k := |s|;
    while k > 0 && before(x, s[k - 1])
      invariant k <= |s|
      invariant forall i :: k <= i < |s| ==> before(x, s[i])
    {
      k := k - 1;
    }
  }

  lemma SpliceSorted<T(!new)>(s: seq<T>, x: T, k: nat, before: (T, T) -> bool)
    requires IsOrdering(before) && SortedBy(s, before) && k <= |s| && (k > 0 ==> !before(x, s[k - 1]))
    requires forall i :: k <= i < |s| ==> before(x, s[i])
    ensures SortedBy(s[..k] + [x] + s[k..], before)
  {
    var r := s[..k] + [x] + s[k..];
    forall i, j | 0 <= i < j < |r| ensures !before(r[j], r[i]) {
      if j == k && i < k - 1 {
        assert !before(s[k - 1], s[i]);
      }
    }
  }

  lemma SpliceElements<T>(s: seq<T>, x: T, k: nat)
    requires k <= |s|
    ensures multiset(s[..k] + [x] + s[k..]) == multiset(s) + multiset{x}
  {
    assert s == s[..k] + s[k..];
  }

  method Sort<T(!new)>(items: seq<T>, before: (T, T) -> bool) returns (r: seq<T>)
    requires IsOrdering(before)
    ensures SortedBy(r, before) && multiset(r) == multiset(items)
  {
    r := [];
    for i := 0 to |items|
      invariant SortedBy(r, before) && multiset(r) == multiset(items[..i])
    {
      assert items[..i + 1] == items[..i] + [items[i]];
      r := InsertSorted(r, items[i], before);
    }
    assert items[..|items|] == items;
  }
}
