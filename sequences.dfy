/**
 * The few Swift collection idioms the engine relies on: `Set(xs).count ==
 * xs.count` as the duplicate test, and `compactMap` over optional slots.
 */
module Sequences {
  import opened Wrappers

  /** `Set(s)`. */
  function ToSet<T(==)>(s: seq<T>): set<T>
  {
    set x | x in s
  }

  /** `Set(s).count == s.count`: the test the source uses for "no duplicates". */
  predicate NoDuplicates<T(==)>(s: seq<T>)
  {
    |ToSet(s)| == |s|
  }

  /** No two positions hold the same element. */
  ghost predicate PairwiseDistinct<T>(s: seq<T>)
  {
    forall i, j :: 0 <= i < j < |s| ==> s[i] != s[j]
  }

  lemma ToSetCons<T>(s: seq<T>)
    requires s != []
    ensures ToSet(s) == {s[0]} + ToSet(s[1..])
  {
    assert s == [s[0]] + s[1..];
  }

  lemma {:induction false} SetSizeAtMostLength<T>(s: seq<T>)
    ensures |ToSet(s)| <= |s|
  {
    if s != [] {
      ToSetCons(s);
      SetSizeAtMostLength(s[1..]);
    }
  }

  /**
   * When every element other than `t` occurs at most once, the elements other
   * than `t` are as many as the positions not holding `t`.
   */
  lemma {:induction false} DistinctApartFrom<T>(s: seq<T>, t: T)
    requires forall v :: v != t ==> multiset(s)[v] <= 1
    ensures |ToSet(s) - {t}| == |s| - multiset(s)[t]
  {
    if s == [] {
      assert ToSet(s) == {};
    } else {
      var x, rest := s[0], s[1..];
      assert s == [x] + rest;
      assert multiset(s) == multiset{x} + multiset(rest);
      ToSetCons(s);
      forall v | v != t ensures multiset(rest)[v] <= 1 {
        assert multiset(rest)[v] <= multiset(s)[v];
      }
      DistinctApartFrom(rest, t);
      if x == t {
        assert ToSet(s) - {t} == ToSet(rest) - {t};
      } else {
        assert multiset(s)[x] == 1 + multiset(rest)[x] <= 1;
        assert x !in rest;
        assert x !in ToSet(rest);
        assert ToSet(s) - {t} == {x} + (ToSet(rest) - {t});
      }
    }
  }

  /** The set-size test for duplicates means exactly "no two positions are equal". */
  lemma {:induction false} NoDuplicatesIff<T>(s: seq<T>)
    ensures NoDuplicates(s) <==> PairwiseDistinct(s)
  {
    if s != [] {
      var t := s[1..];
      ToSetCons(s);
      NoDuplicatesIff(t);
      SetSizeAtMostLength(t);
      if s[0] in t {
        var k :| 0 <= k < |t| && t[k] == s[0];
        assert s[k + 1] == s[0];
        assert ToSet(s) == ToSet(t);
      } else {
        assert |ToSet(s)| == |ToSet(t)| + 1;
        if PairwiseDistinct(t) {
          forall i, j | 0 <= i < j < |s| ensures s[i] != s[j] {
            if i > 0 {
              assert s[i] == t[i - 1] && s[j] == t[j - 1];
            } else {
              assert s[j] == t[j - 1];
            }
          }
        }
      }
      if PairwiseDistinct(s) {
        forall i, j | 0 <= i < j < |t| ensures t[i] != t[j] {
          assert t[i] == s[i + 1] && t[j] == s[j + 1];
        }
      }
    }
  }

  /** Every element occurs at most once. */
  ghost predicate AtMostOnce<T(!new)>(m: multiset<T>)
  {
    forall x :: m[x] <= 1
  }

  lemma DistinctCons<T>(s: seq<T>)
    requires s != []
    ensures PairwiseDistinct(s) <==> PairwiseDistinct(s[1..]) && s[0] !in s[1..]
  {
    var t := s[1..];
    if PairwiseDistinct(s) {
      forall i, j | 0 <= i < j < |t| ensures t[i] != t[j] {
        assert t[i] == s[i + 1] && t[j] == s[j + 1];
      }
      forall k | 0 <= k < |t| ensures t[k] != s[0] {
        assert t[k] == s[k + 1];
      }
    }
    if PairwiseDistinct(t) && s[0] !in t {
      forall i, j | 0 <= i < j < |s| ensures s[i] != s[j] {
        assert s[j] == t[j - 1];
        if i > 0 {
          assert s[i] == t[i - 1];
        }
      }
    }
  }

  /** Distinct positions mean exactly that the multiset holds every element at most once. */
  lemma {:induction false} DistinctIffAtMostOnce<T(!new)>(s: seq<T>)
    ensures PairwiseDistinct(s) <==> AtMostOnce(multiset(s))
  {
    if s != [] {
      var t := s[1..];
      assert s == [s[0]] + t;
      assert multiset(s) == multiset{s[0]} + multiset(t);
      DistinctCons(s);
      DistinctIffAtMostOnce(t);
      if AtMostOnce(multiset(s)) {
        forall x ensures multiset(t)[x] <= 1 {
          assert multiset(t)[x] <= multiset(s)[x];
        }
        assert multiset(s)[s[0]] == 1 + multiset(t)[s[0]];
      }
      if PairwiseDistinct(s) {
        forall x ensures multiset(s)[x] <= 1 {
          if x == s[0] {
            assert multiset(t)[x] == 0;
          }
        }
      }
    }
  }

  /** Appending an element not yet present keeps the positions distinct and adds it to the set. */
  lemma AppendNew<T>(s: seq<T>, x: T)
    requires PairwiseDistinct(s) && x !in s
    ensures PairwiseDistinct(s + [x])
    ensures ToSet(s + [x]) == ToSet(s) + {x}
  {
    assert forall i :: 0 <= i < |s| ==> (s + [x])[i] == s[i];
  }

  /** `compactMap { $0 }`: the filled slots, in slot order. */
  function CompactMap<T>(s: seq<Option<T>>): (r: seq<T>)
    ensures |r| <= |s|
  {
    if s == [] then []
    else
      var rest := CompactMap(s[1..]);
      if s[0].Some? then [s[0].value] + rest else rest
  }

  /** The compacted list holds exactly the values of the filled slots. */
  lemma {:induction false} CompactMapMembers<T>(s: seq<Option<T>>)
    ensures forall k :: 0 <= k < |CompactMap(s)| ==> Some(CompactMap(s)[k]) in s
    ensures forall k :: 0 <= k < |s| && s[k].Some? ==> s[k].value in CompactMap(s)
  {
    if s != [] {
      CompactMapMembers(s[1..]);
      assert s == [s[0]] + s[1..];
      var r := CompactMap(s);
      forall k | 0 <= k < |s| && s[k].Some? ensures s[k].value in r {
        if k > 0 {
          assert s[k] == s[1..][k - 1];
        }
      }
    }
  }

  /** The multiset of an optional value. */
  function OptionMultiset<T>(o: Option<T>): multiset<T>
  {
    if o.Some? then multiset{o.value} else multiset{}
  }

  lemma CompactMapCons<T>(s: seq<Option<T>>)
    requires s != []
    ensures multiset(CompactMap(s)) == OptionMultiset(s[0]) + multiset(CompactMap(s[1..]))
  {
  }

  lemma MultisetSwap<T>(a: multiset<T>, x: multiset<T>, y: multiset<T>)
    ensures x + a + y == y + a + x
  {
    assert forall e :: (x + a + y)[e] == (y + a + x)[e];
  }

  lemma MultisetExtend<T>(o: multiset<T>, a: multiset<T>, b: multiset<T>, c: multiset<T>, d: multiset<T>)
    requires a + c == b + d
    ensures o + a + c == o + b + d
  {
    forall e ensures (o + a + c)[e] == (o + b + d)[e] {
      assert (a + c)[e] == (b + d)[e];
    }
  }

  /** Overwriting one slot replaces that slot's card and nothing else. */
  lemma {:induction false} CompactMapUpdate<T>(s: seq<Option<T>>, i: nat, v: Option<T>)
    requires i < |s|
    ensures multiset(CompactMap(s[i := v])) + OptionMultiset(s[i])
         == multiset(CompactMap(s)) + OptionMultiset(v)
  {
    var s' := s[i := v];
    var t, t' := s[1..], s'[1..];
    CompactMapCons(s);
    CompactMapCons(s');
    if i == 0 {
      assert t' == t;
      MultisetSwap(multiset(CompactMap(t)), OptionMultiset(v), OptionMultiset(s[0]));
    } else {
      assert t' == t[i - 1 := v];
      assert t[i - 1] == s[i] && s'[0] == s[0];
      CompactMapUpdate(t, i - 1, v);
      MultisetExtend(OptionMultiset(s[0]), multiset(CompactMap(t')), multiset(CompactMap(t)),
                     OptionMultiset(s[i]), OptionMultiset(v));
    }
  }
}
