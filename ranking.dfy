/** Ordering records best first by a numeric key, as pandas'
    `sort_values(by=..., ascending=False)` does for the scripts' result
    tables. pandas' default sort does not promise an order among ties, so
    the contract is the one every allowed order meets: ordered, and the same
    records. */
module Ranking {

  predicate SortedBy<T>(s: seq<T>, key: T -> real)
  {
    forall i, j :: 0 <= i < j < |s| ==> key(s[i]) >= key(s[j])
  }

  /** An element no worse than the head of an ordered list can go in front. */
  lemma PrependSorted<T>(y: T, t: seq<T>, key: T -> real)
    requires SortedBy(t, key) && (t != [] ==> key(y) >= key(t[0]))
    ensures SortedBy([y] + t, key)
  {
    var r := [y] + t;
    forall i, j | 0 <= i < j < |r| ensures key(r[i]) >= key(r[j]) {
      if i == 0 && j > 1 {
        assert key(t[0]) >= key(t[j - 1]);
      }
    }
  }

  lemma SortedTail<T>(a: seq<T>, key: T -> real)
    requires SortedBy(a, key) && a != []
    ensures SortedBy(a[1..], key)
  {
    forall i, j | 0 <= i < j < |a| - 1 ensures key(a[1..][i]) >= key(a[1..][j]) {
      assert a[1..][i] == a[i + 1] && a[1..][j] == a[j + 1];
    }
  }

  /** Insert an element into a list ordered best first, after the ones
      that are at least as good. */
  function InsertBy<T(==)>(x: T, s: seq<T>, key: T -> real): (r: seq<T>)
    requires SortedBy(s, key)
    ensures SortedBy(r, key)
    ensures multiset(r) == multiset(s) + multiset{x}
    ensures |r| == |s| + 1
    ensures r[0] == x || (s != [] && r[0] == s[0])
  {
    if s == [] then [x]
    else if key(s[0]) >= key(x) then
      var tail := s[1..];
      SortedTail(s, key);
      var rest := InsertBy(x, tail, key);
      assert tail != [] ==> tail[0] == s[1];
      PrependSorted(s[0], rest, key);
      assert s == [s[0]] + tail;
      [s[0]] + rest
    else
      PrependSorted(x, s, key);
      [x] + s
  }

  /** The same elements, best key first. */
  function SortBy<T(==)>(s: seq<T>, key: T -> real): (r: seq<T>)
    ensures SortedBy(r, key)
    ensures multiset(r) == multiset(s)
  {
    if s == [] then []
    else
      assert s == s[..|s| - 1] + [s[|s| - 1]];
      InsertBy(s[|s| - 1], SortBy(s[..|s| - 1], key), key)
  }

  /** Two orderings of the same elements agree when no two keys are equal:
      the order is determined up to the order of ties. */
  lemma {:induction false} SortedUnique<T>(a: seq<T>, b: seq<T>, key: T -> real)
    requires SortedBy(a, key) && SortedBy(b, key) && multiset(a) == multiset(b)
    requires forall i, j :: 0 <= i < j < |a| ==> key(a[i]) != key(a[j])
    ensures a == b
    decreases |a|
  {
    if a != [] {
      SortedSameHead(a, b, key);
      MultisetTail(a, b);
      SortedTail(a, key);
      SortedTail(b, key);
      DistinctTail(a, key);
      SortedUnique(a[1..], b[1..], key);
      assert a == [a[0]] + a[1..] && b == [b[0]] + b[1..];
    }
  }

  /** Two orderings of the same elements with distinct keys start alike. */
  lemma SortedSameHead<T>(a: seq<T>, b: seq<T>, key: T -> real)
    requires SortedBy(a, key) && SortedBy(b, key) && multiset(a) == multiset(b) && a != []
    requires forall i, j :: 0 <= i < j < |a| ==> key(a[i]) != key(a[j])
    ensures b != [] && a[0] == b[0]
  {
    assert a[0] in multiset(b);
    assert b != [];
    assert b[0] in multiset(a);
    var ia :| 0 <= ia < |a| && a[ia] == b[0];
    var ib :| 0 <= ib < |b| && b[ib] == a[0];
    assert key(a[0]) >= key(a[ia]) == key(b[0]) >= key(b[ib]) == key(a[0]);
  }

  /** Equal multisets with equal heads have equal tails. */
  lemma MultisetTail<T>(a: seq<T>, b: seq<T>)
    requires a != [] && b != [] && a[0] == b[0] && multiset(a) == multiset(b)
    ensures multiset(a[1..]) == multiset(b[1..])
  {
    assert a == [a[0]] + a[1..];
    assert b == [b[0]] + b[1..];
    assert multiset(a[1..]) == multiset(a) - multiset{a[0]};
  }

  lemma DistinctTail<T>(a: seq<T>, key: T -> real)
    requires a != [] && forall i, j :: 0 <= i < j < |a| ==> key(a[i]) != key(a[j])
    ensures forall i, j :: 0 <= i < j < |a| - 1 ==> key(a[1..][i]) != key(a[1..][j])
  {
    forall i, j | 0 <= i < j < |a| - 1 ensures key(a[1..][i]) != key(a[1..][j]) {
      assert a[1..][i] == a[i + 1] && a[1..][j] == a[j + 1];
    }
  }
}
