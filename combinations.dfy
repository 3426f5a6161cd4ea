/**
 * The k-element selections `generateCombinations` lists, as a specification
 * function (Pascal's rule) with the counting and position facts proved about it.
 */
module Combinatorics {
  import opened Sequences

  /** Each list of `ss` with `x` put in front. */
  function PrependAll<T>(x: T, ss: seq<seq<T>>): (r: seq<seq<T>>)
    ensures |r| == |ss|
  {
    seq(|ss|, i requires 0 <= i < |ss| => [x] + ss[i])
  }

  /**
   * All order-preserving selections of k elements of `a`: those that take
   * `a[0]` come first, then those that skip it.
   */
  function Combinations<T>(a: seq<T>, k: int): seq<seq<T>>
    decreases |a|
  {
    if k <= 0 then [[]]
    else if |a| < k then []
    else PrependAll(a[0], Combinations(a[1..], k - 1)) + Combinations(a[1..], k)
  }

  /** The binomial coefficient, by Pascal's rule. */
  function Choose(n: nat, k: int): nat
  {
    if k <= 0 then 1
    else if n < k then 0
    else Choose(n - 1, k - 1) + Choose(n - 1, k)
  }

  /**
   * The lists the source's loop appends from position `i` on: for each
   * start position j, a[j] in front of every selection of k - 1 from a[j+1..].
   */
  function Blocks<T>(a: seq<T>, k: int, i: nat): seq<seq<T>>
    requires i <= |a| + 1
    decreases |a| + 1 - i
  {
    if i + k > |a| || i >= |a| then []
    else PrependAll(a[i], Combinations(a[i + 1..], k - 1)) + Blocks(a, k, i + 1)
  }

  lemma {:induction false} BlocksAreCombinations<T>(a: seq<T>, k: int, i: nat)
    requires 1 <= k && i <= |a|
    ensures Blocks(a, k, i) == Combinations(a[i..], k)
    decreases |a| - i
  {
    if i + k <= |a| {
      BlocksAreCombinations(a, k, i + 1);
      assert a[i..][1..] == a[i + 1..];
      assert a[i..][0] == a[i];
    }
  }

  /** Choosing every element gives the one list `a`. */
  lemma {:induction false} CombinationsOfAll<T>(a: seq<T>)
    ensures Combinations(a, |a|) == [a]
  {
    if a != [] {
      CombinationsOfAll(a[1..]);
      assert [a[0]] + a[1..] == a;
    }
  }

  /** Choosing one element gives the singletons in order. */
  lemma {:induction false} CombinationsOfOne<T>(a: seq<T>)
    ensures Combinations(a, 1) == seq(|a|, i requires 0 <= i < |a| => [a[i]])
  {
    if a != [] {
      CombinationsOfOne(a[1..]);
      assert Combinations(a[1..], 0) == [[]];
      assert [a[0]] + [] == [a[0]];
    }
  }

  /** Pascal's rule, once: the selections that take `a[0]`, then those that skip it. */
  lemma CombinationsStep<T>(a: seq<T>, k: int)
    requires 1 <= k <= |a|
    ensures Combinations(a, k) == PrependAll(a[0], Combinations(a[1..], k - 1)) + Combinations(a[1..], k)
  {
  }

  /** One step of the start-position loop: the block at `i`, then the rest. */
  lemma BlocksStep<T>(a: seq<T>, k: int, i: nat)
    requires 1 <= k && i + k <= |a|
    ensures Blocks(a, k, i) == PrependAll(a[i], Combinations(a[i + 1..], k - 1)) + Blocks(a, k, i + 1)
  {
  }

  /** The loop's step: appending the block at `i` leaves the blocks from `i + 1` to come. */
  lemma BlocksAppend<T>(a: seq<T>, k: int, i: nat, done: seq<seq<T>>)
    requires 1 <= k && i + k <= |a|
    ensures (done + PrependAll(a[i], Combinations(a[i + 1..], k - 1))) + Blocks(a, k, i + 1) == done + Blocks(a, k, i)
  {
    BlocksStep(a, k, i);
  }

  /** The inner loop: appends `[first] + sub` for each list of `subs`, in order. */
  method AppendPrefixed<T>(result: seq<seq<T>>, first: T, subs: seq<seq<T>>) returns (r: seq<seq<T>>)
    ensures r == result + PrependAll(first, subs)
  {
    r := result;
    for j := 0 to |subs|
      invariant r == result + PrependAll(first, subs[..j])
    {
      assert PrependAll(first, subs[..j + 1]) == PrependAll(first, subs[..j]) + [[first] + subs[j]];
      r := r + [[first] + subs[j]];
    }
    assert subs[..|subs|] == subs;
  }

  /** `generateCombinations(array, choose)`: the guards, then the start-position loop. */
  method GenerateCombinations<T>(a: seq<T>, k: int) returns (result: seq<seq<T>>)
    ensures result == Combinations(a, k)
    decreases |a|, 2
  {
    if k > |a| {
      result := [];
    } else if k <= 0 {
      result := [[]];
    } else if k >= |a| {
      CombinationsOfAll(a);
      result := [a];
    } else if k == 1 {
      CombinationsOfOne(a);
      result := seq(|a|, i requires 0 <= i < |a| => [a[i]]);
    } else {
      result := StartPositionLoop(a, k);
    }
  }

  /**
   * The loop of `generateCombinations`: for each start position i up to
   * |a| - k, `a[i]` in front of every selection of k - 1 from `a[i+1..]`.
   */
  method StartPositionLoop<T>(a: seq<T>, k: int) returns (result: seq<seq<T>>)
    requires 2 <= k < |a|
    ensures result == Combinations(a, k)
    decreases |a|, 1
  {
    result := [];
    BlocksAreCombinations(a, k, 0);
    assert a[0..] == a;
    for i := 0 to |a| - k + 1
      invariant result + Blocks(a, k, i) == Combinations(a, k)
    {
      BlocksAppend(a, k, i, result);
      result := AddStartPosition(a, k, i, result);
    }
    assert result + [] == result;
  }

  /** One start position: `a[i]` in front of every selection of k - 1 from `a[i+1..]`, appended. */
  method AddStartPosition<T>(a: seq<T>, k: int, i: nat, result: seq<seq<T>>) returns (r: seq<seq<T>>)
    requires 2 <= k && i + k <= |a|
    ensures r == result + PrependAll(a[i], Combinations(a[i + 1..], k - 1))
    decreases |a|, 0
  {
    var sub := GenerateCombinations(a[i + 1..], k - 1);
    r := AppendPrefixed(result, a[i], sub);
  }

  /** C(n, k) selections. */
  lemma {:induction false} CombinationsCount<T>(a: seq<T>, k: int)
    ensures |Combinations(a, k)| == Choose(|a|, k)
    decreases |a|
  {
    if k <= 0 {
    } else if |a| < k {
    } else {
      var t := a[1..];
      calc {
        |Combinations(a, k)|;
      == { CombinationsStep(a, k); }
        |PrependAll(a[0], Combinations(t, k - 1))| + |Combinations(t, k)|;
      == { CombinationsCount(t, k - 1); CombinationsCount(t, k); }
        Choose(|t|, k - 1) + Choose(|t|, k);
      }
    }
  }

  /** Every list of `ss` has k elements. */
  ghost predicate AllOfLength<T>(ss: seq<seq<T>>, k: nat)
  {
    forall l :: l in ss ==> |l| == k
  }

  lemma PrependAllLength<T>(x: T, ss: seq<seq<T>>, k: nat)
    requires AllOfLength(ss, k)
    ensures AllOfLength(PrependAll(x, ss), k + 1)
  {
    forall l | l in PrependAll(x, ss) ensures |l| == k + 1 {
      InPrependAll(x, ss, l);
    }
  }

  /** Every selection has k elements. */
  lemma {:induction false} CombinationLengths<T>(a: seq<T>, k: nat)
    ensures AllOfLength(Combinations(a, k), k)
    decreases |a|
  {
    if k > 0 && |a| >= k {
      assert AllOfLength(PrependAll(a[0], Combinations(a[1..], k - 1)), k) by {
        CombinationLengths(a[1..], k - 1);
        PrependAllLength(a[0], Combinations(a[1..], k - 1), k - 1);
      }
      assert AllOfLength(Combinations(a[1..], k), k) by {
        CombinationLengths(a[1..], k);
      }
      CombinationsStep(a, k);
    }
  }

  lemma {:induction false} ChoosePositive(n: nat, k: int)
    requires k <= n
    ensures Choose(n, k) >= 1
  {
    if k > 0 {
      ChoosePositive(n - 1, k - 1);
    }
  }

  /** Seven cards give 21 five-card hands and six give 6. */
  lemma HandCombinationCounts()
    ensures Choose(7, 5) == 21 && Choose(6, 5) == 6 && Choose(5, 5) == 1
  {
  }

  /** The integers lo, lo + 1, ..., hi - 1. */
  function Range(lo: int, hi: int): (r: seq<int>)
    requires lo <= hi
    ensures |r| == hi - lo
    ensures forall i :: 0 <= i < |r| ==> r[i] == lo + i
  {
    seq(hi - lo, i requires 0 <= i < hi - lo => lo + i)
  }

  /** Positions listed in strictly increasing order, all within [lo, hi). */
  predicate IncreasingWithin(ix: seq<int>, lo: int, hi: int)
  {
    (forall j :: 0 <= j < |ix| ==> lo <= ix[j] < hi)
    && (forall j, m :: 0 <= j < m < |ix| ==> ix[j] < ix[m])
  }

  /** The elements of `a` at positions `ix`. */
  function Pick<T>(a: seq<T>, ix: seq<int>): (r: seq<T>)
    requires forall j :: 0 <= j < |ix| ==> 0 <= ix[j] < |a|
    ensures |r| == |ix|
  {
    seq(|ix|, j requires 0 <= j < |ix| => a[ix[j]])
  }

  /** Every list of `ixs` has length k and increasing positions within [lo, hi). */
  predicate AllIncreasingWithin(ixs: seq<seq<int>>, k: nat, lo: int, hi: int)
  {
    forall ix :: ix in ixs ==> |ix| == k && IncreasingWithin(ix, lo, hi)
  }

  /** A list of `PrependAll(x, ss)` is `x` in front of a list of `ss`. */
  lemma InPrependAll<T>(x: T, ss: seq<seq<T>>, l: seq<T>)
    requires l in PrependAll(x, ss)
    ensures |l| >= 1 && l[0] == x && l[1..] in ss
  {
    var t :| 0 <= t < |ss| && PrependAll(x, ss)[t] == l;
    assert l == [x] + ss[t];
    assert l[1..] == ss[t];
  }

  lemma PrependIncreasing(lo: int, hi: int, tail: seq<int>)
    requires lo < hi && IncreasingWithin(tail, lo + 1, hi)
    ensures IncreasingWithin([lo] + tail, lo, hi)
  {
    var ix := [lo] + tail;
    forall j, m | 0 <= j < m < |ix| ensures ix[j] < ix[m] {
      assert ix[m] == tail[m - 1];
      if j > 0 {
        assert ix[j] == tail[j - 1];
      }
    }
  }

  /** Every selection of positions is increasing, of length k, and within [lo, hi). */
  lemma {:induction false} PositionSelectionsIncrease(lo: int, hi: int, k: nat)
    requires lo <= hi
    ensures AllIncreasingWithin(Combinations(Range(lo, hi), k), k, lo, hi)
    decreases hi - lo
  {
    var r := Range(lo, hi);
    if k > 0 && |r| >= k {
      assert r[1..] == Range(lo + 1, hi);
      PositionSelectionsIncrease(lo + 1, hi, k - 1);
      PositionSelectionsIncrease(lo + 1, hi, k);
      var subs := Combinations(r[1..], k - 1);
      var left := PrependAll(r[0], subs);
      var right := Combinations(r[1..], k);
      assert Combinations(r, k) == left + right;
      forall ix | ix in Combinations(r, k)
        ensures |ix| == k && IncreasingWithin(ix, lo, hi)
      {
        if ix in left {
          InPrependAll(r[0], subs, ix);
          PrependIncreasing(lo, hi, ix[1..]);
          assert ix == [lo] + ix[1..];
        } else {
          assert ix in right;
        }
      }
    }
  }

  /** A list of `ss` with `x` in front is a list of `PrependAll(x, ss)`. */
  lemma PrependedIn<T>(x: T, ss: seq<seq<T>>, l: seq<T>)
    requires l in ss
    ensures [x] + l in PrependAll(x, ss)
  {
    var t :| 0 <= t < |ss| && ss[t] == l;
    assert PrependAll(x, ss)[t] == [x] + l;
  }

  lemma TailIncreasing(ix: seq<int>, lo: int, hi: int)
    requires |ix| >= 1 && IncreasingWithin(ix, lo, hi)
    ensures IncreasingWithin(ix[1..], ix[0] + 1, hi)
  {
    var tail := ix[1..];
    forall j | 0 <= j < |tail| ensures ix[0] + 1 <= tail[j] < hi {
      assert tail[j] == ix[j + 1];
    }
    forall j, m | 0 <= j < m < |tail| ensures tail[j] < tail[m] {
      assert tail[j] == ix[j + 1] && tail[m] == ix[m + 1];
    }
  }

  lemma RaiseLowerBound(ix: seq<int>, lo: int, hi: int)
    requires |ix| >= 1 && IncreasingWithin(ix, lo, hi) && ix[0] > lo
    ensures IncreasingWithin(ix, lo + 1, hi)
  {
    forall j | 0 <= j < |ix| ensures lo + 1 <= ix[j] {
      if j > 0 {
        assert ix[0] < ix[j];
      }
    }
  }

  /** The j-th of increasing positions from lo is at least lo + j. */
  lemma {:induction false} LowerBoundByPosition(ix: seq<int>, lo: int, hi: int, j: nat)
    requires IncreasingWithin(ix, lo, hi) && j < |ix|
    ensures ix[j] >= lo + j
  {
    if j > 0 {
      LowerBoundByPosition(ix, lo, hi, j - 1);
    }
  }

  /** Every increasing list of k positions within [lo, hi) is one of the selections. */
  lemma {:induction false} PositionSelectionsComplete(lo: int, hi: int, k: nat, ix: seq<int>)
    requires lo <= hi && |ix| == k && IncreasingWithin(ix, lo, hi)
    ensures ix in Combinations(Range(lo, hi), k)
    decreases hi - lo
  {
    var r := Range(lo, hi);
    if k == 0 {
      assert ix == [];
    } else {
      LowerBoundByPosition(ix, lo, hi, k - 1);
      assert r[1..] == Range(lo + 1, hi);
      CombinationsStep(r, k);
      if ix[0] == lo {
        assert ix in PrependAll(r[0], Combinations(r[1..], k - 1)) by {
          TailIncreasing(ix, lo, hi);
          PositionSelectionsComplete(lo + 1, hi, k - 1, ix[1..]);
          PrependedIn(lo, Combinations(r[1..], k - 1), ix[1..]);
          assert ix == [lo] + ix[1..];
        }
      } else {
        assert ix in Combinations(r[1..], k) by {
          RaiseLowerBound(ix, lo, hi);
          PositionSelectionsComplete(lo + 1, hi, k, ix);
        }
      }
    }
  }

  lemma PrependAllDistinct<T>(x: T, ss: seq<seq<T>>)
    requires PairwiseDistinct(ss)
    ensures PairwiseDistinct(PrependAll(x, ss))
  {
    var p := PrependAll(x, ss);
    forall s, t | 0 <= s < t < |p| ensures p[s] != p[t] {
      assert p[s][1..] == ss[s] && p[t][1..] == ss[t];
    }
  }

  lemma ConcatDistinct<T>(l: seq<T>, r: seq<T>)
    requires PairwiseDistinct(l) && PairwiseDistinct(r)
    requires forall u :: u in l ==> u !in r
    ensures PairwiseDistinct(l + r)
  {
    var lr := l + r;
    forall s, t | 0 <= s < t < |lr| ensures lr[s] != lr[t] {
      if s < |l| && t >= |l| {
        assert lr[s] in l && lr[t] == r[t - |l|];
      } else if s >= |l| {
        assert lr[s] == r[s - |l|] && lr[t] == r[t - |l|];
      }
    }
  }

  /** Lists starting with `lo` are none of the lists of positions above `lo`. */
  lemma StartsDisjoint(lo: int, hi: int, k: nat, subs: seq<seq<int>>, right: seq<seq<int>>)
    requires k >= 1 && AllIncreasingWithin(right, k, lo + 1, hi)
    ensures forall u :: u in PrependAll(lo, subs) ==> u !in right
  {
    forall u | u in PrependAll(lo, subs) ensures u !in right {
      InPrependAll(lo, subs, u);
    }
  }

  lemma DistinctStep(lo: int, hi: int, k: nat, subs: seq<seq<int>>, right: seq<seq<int>>)
    requires k >= 1 && PairwiseDistinct(subs) && PairwiseDistinct(right)
    requires AllIncreasingWithin(right, k, lo + 1, hi)
    ensures PairwiseDistinct(PrependAll(lo, subs) + right)
  {
    PrependAllDistinct(lo, subs);
    StartsDisjoint(lo, hi, k, subs, right);
    ConcatDistinct(PrependAll(lo, subs), right);
  }

  /** Distinct selections choose distinct positions. */
  lemma {:induction false} PositionSelectionsDistinct(lo: int, hi: int, k: nat)
    requires lo <= hi
    ensures PairwiseDistinct(Combinations(Range(lo, hi), k))
    decreases hi - lo
  {
    var r := Range(lo, hi);
    if k == 0 {
      assert Combinations(r, k) == [[]];
    } else if |r| < k {
      assert Combinations(r, k) == [];
    } else {
      var t := Range(lo + 1, hi);
      assert PairwiseDistinct(PrependAll(lo, Combinations(t, k - 1)) + Combinations(t, k)) by {
        PositionSelectionsDistinct(lo + 1, hi, k - 1);
        PositionSelectionsDistinct(lo + 1, hi, k);
        PositionSelectionsIncrease(lo + 1, hi, k);
        DistinctStep(lo, hi, k, Combinations(t, k - 1), Combinations(t, k));
      }
      assert r[1..] == t;
      CombinationsStep(r, k);
    }
  }

  /** Every position of every list of `ixs` is a position of a list of length n. */
  predicate PositionsBelow(ixs: seq<seq<int>>, n: int)
  {
    forall s, j :: 0 <= s < |ixs| && 0 <= j < |ixs[s]| ==> 0 <= ixs[s][j] < n
  }

  /** The elements at each selection of positions, in selection order. */
  function PickAll<T>(a: seq<T>, ixs: seq<seq<int>>): (r: seq<seq<T>>)
    requires PositionsBelow(ixs, |a|)
    ensures |r| == |ixs|
  {
    seq(|ixs|, s requires 0 <= s < |ixs| => Pick(a, ixs[s]))
  }

  lemma PositionSelectionsBelow(lo: nat, n: int, k: nat)
    requires lo <= n
    ensures PositionsBelow(Combinations(Range(lo, n), k), n)
  {
    var c := Combinations(Range(lo, n), k);
    PositionSelectionsIncrease(lo, n, k);
    forall s, j | 0 <= s < |c| && 0 <= j < |c[s]| ensures 0 <= c[s][j] < n {
      assert c[s] in c;
    }
  }

  lemma PickAllPrepend<T>(a: seq<T>, lo: nat, subs: seq<seq<int>>)
    requires lo < |a| && PositionsBelow(subs, |a|)
    ensures PositionsBelow(PrependAll(lo, subs), |a|)
    ensures PickAll(a, PrependAll(lo, subs)) == PrependAll(a[lo], PickAll(a, subs))
  {
    var p := PrependAll(lo, subs);
    forall s, j | 0 <= s < |p| && 0 <= j < |p[s]| ensures 0 <= p[s][j] < |a| {
      assert p[s] == [lo] + subs[s];
    }
    forall s | 0 <= s < |p|
      ensures PickAll(a, p)[s] == PrependAll(a[lo], PickAll(a, subs))[s]
    {
      assert p[s] == [lo] + subs[s];
      assert Pick(a, [lo] + subs[s]) == [a[lo]] + Pick(a, subs[s]);
    }
  }

  lemma PickAllConcat<T>(a: seq<T>, x: seq<seq<int>>, y: seq<seq<int>>)
    requires PositionsBelow(x, |a|) && PositionsBelow(y, |a|)
    ensures PositionsBelow(x + y, |a|)
    ensures PickAll(a, x + y) == PickAll(a, x) + PickAll(a, y)
  {
    var xy := x + y;
    forall s, j | 0 <= s < |xy| && 0 <= j < |xy[s]| ensures 0 <= xy[s][j] < |a| {
      if s >= |x| {
        assert xy[s] == y[s - |x|];
      }
    }
  }

  /**
   * Selecting from `a[lo..]` is selecting positions from [lo, |a|) and reading
   * `a` there: each selection is an order-preserving subsequence of `a`.
   */
  lemma {:induction false} CombinationsArePicks<T>(a: seq<T>, lo: nat, k: nat)
    requires lo <= |a|
    ensures PositionsBelow(Combinations(Range(lo, |a|), k), |a|)
    ensures Combinations(a[lo..], k) == PickAll(a, Combinations(Range(lo, |a|), k))
    decreases |a| - lo
  {
    var r := Range(lo, |a|);
    PositionSelectionsBelow(lo, |a|, k);
    if k == 0 {
      assert Pick(a, []) == [];
    } else if |r| >= k {
      assert r[1..] == Range(lo + 1, |a|);
      assert a[lo..][1..] == a[lo + 1..];
      CombinationsArePicks(a, lo + 1, k - 1);
      CombinationsArePicks(a, lo + 1, k);
      var subs := Combinations(r[1..], k - 1);
      var right := Combinations(r[1..], k);
      CombinationsStep(r, k);
      CombinationsStep(a[lo..], k);
      PickAllPrepend(a, lo, subs);
      PickAllConcat(a, PrependAll(lo, subs), right);
    }
  }
}
