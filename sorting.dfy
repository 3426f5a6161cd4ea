/**
 * Swift's `sorted(by: >)` on the keys the evaluator sorts by (rank values,
 * kicker values), modelled as a stable insertion sort in descending key order.
 */
module Sorting {

  /** No element has a larger key than an element before it. */
  predicate SortedDescBy<T>(s: seq<T>, key: T -> int)
  {
    forall i, j :: 0 <= i < j < |s| ==> key(s[i]) >= key(s[j])
  }

  /** Inserts `x` before the first element whose key is smaller than x's. */
  function InsertDescBy<T>(x: T, s: seq<T>, key: T -> int): (r: seq<T>)
    requires SortedDescBy(s, key)
    ensures SortedDescBy(r, key)
    ensures multiset(r) == multiset(s) + multiset{x}
  {
    if s == [] || key(x) >= key(s[0]) then
      [x] + s
    else
      var rest := InsertDescBy(x, s[1..], key);
      BoundedKeys(rest, s[1..] + [x], key, key(s[0]));
      assert s == [s[0]] + s[1..];
      [s[0]] + rest
  }

  /** A rearrangement of elements whose keys are at most `b` has keys at most `b`. */
  lemma BoundedKeys<T>(r: seq<T>, s: seq<T>, key: T -> int, b: int)
    requires multiset(r) == multiset(s)
    requires forall i :: 0 <= i < |s| ==> key(s[i]) <= b
    ensures forall k :: 0 <= k < |r| ==> key(r[k]) <= b
  {
    forall k | 0 <= k < |r| ensures key(r[k]) <= b {
      assert r[k] in multiset(s);
      var m :| 0 <= m < |s| && s[m] == r[k];
    }
  }

  /** The elements of `s` rearranged so that keys never increase. */
  function SortDescBy<T>(s: seq<T>, key: T -> int): (r: seq<T>)
    ensures SortedDescBy(r, key)
    ensures multiset(r) == multiset(s)
  {
    if s == [] then []
    else
      assert s == [s[0]] + s[1..];
      InsertDescBy(s[0], SortDescBy(s[1..], key), key)
  }

  function IntKey(x: int): int { x }

  /** `sorted(by: >)` on a list of integers. */
  function SortDesc(s: seq<int>): (r: seq<int>)
    ensures SortedDescBy(r, IntKey)
    ensures multiset(r) == multiset(s) && |r| == |s|
  {
    var r := SortDescBy(s, IntKey);
    assert |r| == |multiset(r)| == |multiset(s)| == |s|;
    r
  }

  /** The first element of a descending list is its largest. */
  lemma HeadIsLargest(a: seq<int>, x: int)
    requires SortedDescBy(a, IntKey) && x in multiset(a)
    ensures a != [] && x <= a[0]
  {
    var i :| 0 <= i < |a| && a[i] == x;
    assert IntKey(a[0]) >= IntKey(a[i]) || i == 0;
  }

  lemma SortedTail(a: seq<int>)
    requires a != [] && SortedDescBy(a, IntKey)
    ensures SortedDescBy(a[1..], IntKey)
  {
    forall i, j | 0 <= i < j < |a| - 1 ensures IntKey(a[1..][i]) >= IntKey(a[1..][j]) {
      assert a[1..][i] == a[i + 1] && a[1..][j] == a[j + 1];
    }
  }

  lemma TailMultiset(a: seq<int>, b: seq<int>)
    requires a != [] && b != [] && a[0] == b[0] && multiset(a) == multiset(b)
    ensures multiset(a[1..]) == multiset(b[1..])
  {
    assert a == [a[0]] + a[1..];
    assert b == [b[0]] + b[1..];
    var x := a[0];
    forall y ensures multiset(a[1..])[y] == multiset(b[1..])[y] {
      assert multiset(a)[y] == multiset{x}[y] + multiset(a[1..])[y];
      assert multiset(b)[y] == multiset{x}[y] + multiset(b[1..])[y];
    }
  }

  /** Two sorted rearrangements of the same integers are the same list. */
  lemma {:induction false} SortedDescUnique(a: seq<int>, b: seq<int>)
    requires SortedDescBy(a, IntKey) && SortedDescBy(b, IntKey)
    requires multiset(a) == multiset(b)
    ensures a == b
  {
    if a == [] {
      assert |b| == |multiset(b)| == 0;
    } else {
      assert a[0] in multiset(a);
      HeadIsLargest(b, a[0]);
      assert b[0] in multiset(b);
      HeadIsLargest(a, b[0]);
      TailMultiset(a, b);
      SortedTail(a);
      SortedTail(b);
      SortedDescUnique(a[1..], b[1..]);
      assert a == [a[0]] + a[1..];
      assert b == [b[0]] + b[1..];
    }
  }

  /** The elements of `s` last to first. */
  function Reverse<T>(s: seq<T>): (r: seq<T>)
    ensures |r| == |s|
  {
    seq(|s|, i requires 0 <= i < |s| => s[|s| - 1 - i])
  }

  /** `sorted()` on a list of integers: the descending sort read backwards. */
  function SortAsc(s: seq<int>): (r: seq<int>)
    ensures |r| == |s|
    ensures forall i, j :: 0 <= i < j < |r| ==> r[i] <= r[j]
    ensures multiset(r) == multiset(s)
  {
    var d := SortDesc(s);
    ReverseAscending(d);
    ReverseMultiset(d);
    Reverse(d)
  }

  lemma ReverseAscending(d: seq<int>)
    requires SortedDescBy(d, IntKey)
    ensures forall i, j :: 0 <= i < j < |Reverse(d)| ==> Reverse(d)[i] <= Reverse(d)[j]
  {
    var r := Reverse(d);
    forall i, j | 0 <= i < j < |r| ensures r[i] <= r[j] {
      assert IntKey(d[|d| - 1 - j]) >= IntKey(d[|d| - 1 - i]);
    }
  }

  lemma {:induction false} ReverseMultiset<T>(s: seq<T>)
    ensures multiset(Reverse(s)) == multiset(s)
  {
    if s != [] {
      var t := s[..|s| - 1];
      ReverseMultiset(t);
      assert Reverse(s) == [s[|s| - 1]] + Reverse(t);
      assert s == t + [s[|s| - 1]];
    }
  }
}
