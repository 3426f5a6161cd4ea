/**
 * What each check of the hand evaluator recognises among five cards and the
 * tie-break values it reports, stated over how many cards hold each rank value.
 */
module HandCategories {
  import opened Wrappers
  import opened Cards
  import opened Sorting
  import opened Sequences
  import opened HandRanks
  import opened HandEvaluator
  import opened Combinatorics

  /** Two different rank values are held by at most all of the cards. */
  lemma {:induction false} CountTwoBound(cards: seq<Card>, a: int, b: int)
    requires a != b
    ensures Count(cards, a) + Count(cards, b) <= |cards|
  {
    if cards != [] {
      CountCons(cards);
      CountTwoBound(cards[1..], a, b);
    }
  }

  /** Three different rank values are held by at most all of the cards. */
  lemma {:induction false} CountThreeBound(cards: seq<Card>, a: int, b: int, c: int)
    requires a != b && b != c && a != c
    ensures Count(cards, a) + Count(cards, b) + Count(cards, c) <= |cards|
  {
    if cards != [] {
      CountCons(cards);
      CountThreeBound(cards[1..], a, b, c);
    }
  }

  /** The tail of a descending list is already in descending order. */
  lemma SortedTailUnchanged(ranks: seq<int>)
    requires ranks != [] && SortedDescBy(ranks, IntKey)
    ensures SortDesc(ranks[1..]) == ranks[1..]
  {
    SortedTail(ranks);
    SortedDescUnique(SortDesc(ranks[1..]), ranks[1..]);
  }

  /** Lists with the same multiset have the same members. */
  lemma SameMembers(a: seq<int>, b: seq<int>)
    requires multiset(a) == multiset(b)
    ensures ToSet(a) == ToSet(b)
  {
    assert forall x :: x in a <==> x in multiset(a);
    assert forall x :: x in b <==> x in multiset(b);
  }

  /** Ace, king, queen, jack, ten: the ranks of a royal flush, highest first. */
  const RoyalRanks: seq<int> := [14, 13, 12, 11, 10]

  /** The ranks sort to ace, king, queen, jack, ten exactly when those are the rank values held. */
  lemma RoyalRanksIff(cards: seq<Card>)
    ensures RanksDesc(cards) == RoyalRanks <==> multiset(RankValues(cards)) == multiset(RoyalRanks)
  {
    assert SortedDescBy(RoyalRanks, IntKey) by {
      forall i, j | 0 <= i < j < 5 ensures RoyalRanks[i] >= RoyalRanks[j] { }
    }
    if multiset(RankValues(cards)) == multiset(RoyalRanks) {
      SortedDescUnique(RanksDesc(cards), RoyalRanks);
    }
  }

  /** `checkRoyalFlush`: one suit and the ranks ace, king, queen, jack, ten; the primary value is the ace. */
  lemma RoyalFlushIff(cards: seq<Card>)
    requires |cards| == 5
    ensures CheckRoyalFlush(cards).Some? <==>
      IsFlush(cards) && multiset(RankValues(cards)) == multiset(RoyalRanks)
    ensures CheckRoyalFlush(cards).Some? ==>
      CheckRoyalFlush(cards).value.primaryValue == 14 && CheckRoyalFlush(cards).value.kickers == []
  {
    RoyalRanksIff(cards);
  }

  /** Ascending values that each step up by one are pairwise different. */
  lemma ConsecutiveDistinct(s: seq<int>)
    requires Consecutive(s)
    requires forall i, j :: 0 <= i < j < |s| ==> s[i] <= s[j]
    ensures PairwiseDistinct(s)
  {
    forall i, j | 0 <= i < j < |s| ensures s[i] != s[j] {
      assert s[i] <= s[j - 1] && s[j] == s[j - 1] + 1;
    }
  }

  /** `isStraight` holds only when no rank value repeats. */
  lemma StraightHasDistinctRanks(cards: seq<Card>)
    requires |cards| == 5 && StraightRanks(cards)
    ensures PairwiseDistinct(RankValues(cards))
  {
    var rv := RankValues(cards);
    var asc := SortAsc(rv);
    if Consecutive(asc) {
      ConsecutiveDistinct(asc);
      NoDuplicatesIff(asc);
      SameMembers(asc, rv);
    } else {
      assert |{14, 2, 3, 4, 5}| == 5;
    }
    NoDuplicatesIff(rv);
  }

  /** The largest of some values is the head of their descending sort. */
  lemma MaxIsTopRank(s: seq<int>)
    requires s != []
    ensures MaxOf(s) == SortDesc(s)[0]
  {
    var desc := SortDesc(s);
    var m := MaxOf(s);
    assert m in multiset(desc);
    HeadIsLargest(desc, m);
    assert desc[0] in multiset(s);
  }

  /** Five ascending values stepping up by one span four. */
  lemma ConsecutiveSpan(desc: seq<int>)
    requires |desc| == 5 && Consecutive(Reverse(desc))
    ensures desc[0] == desc[4] + 4
  {
    var asc := Reverse(desc);
    assert asc[1] == asc[0] + 1 && asc[2] == asc[1] + 1 && asc[3] == asc[2] + 1 && asc[4] == asc[3] + 1;
    assert desc[0] == asc[4] && desc[4] == asc[0];
  }

  /**
   * `getHighCardForStraight` on a straight: 5 for the wheel; otherwise the
   * highest rank, four above the lowest.
   */
  lemma StraightHighCard(cards: seq<Card>)
    requires |cards| == 5 && StraightRanks(cards)
    ensures IsWheel(cards) ==> HighCardForStraight(cards) == 5
    ensures !IsWheel(cards) ==>
      HighCardForStraight(cards) == RanksDesc(cards)[0] == RanksDesc(cards)[4] + 4
  {
    if !IsWheel(cards) {
      var rv := RankValues(cards);
      assert SortAsc(rv) == Reverse(RanksDesc(cards));
      ConsecutiveSpan(RanksDesc(cards));
      MaxIsTopRank(rv);
    }
  }

  /** `checkStraightFlush`: one suit and a straight; the primary value is the straight's high card. */
  lemma StraightFlushIff(cards: seq<Card>)
    requires |cards| == 5
    ensures CheckStraightFlush(cards).Some? <==> IsFlush(cards) && StraightRanks(cards)
    ensures CheckStraightFlush(cards).Some? ==>
      CheckStraightFlush(cards).value.primaryValue == HighCardForStraight(cards)
      && CheckStraightFlush(cards).value.kickers == []
  {
  }

  /** `checkStraight`: a straight; the primary value is its high card. */
  lemma StraightIff(cards: seq<Card>)
    requires |cards| == 5
    ensures CheckStraight(cards).Some? <==> StraightRanks(cards)
    ensures CheckStraight(cards).Some? ==>
      CheckStraight(cards).value.primaryValue == HighCardForStraight(cards)
      && CheckStraight(cards).value.kickers == []
  {
  }

  /**
   * `checkFourOfAKind`: some rank value held by four cards; it is the
   * primary value and the one kicker is the fifth card's rank.
   */
  lemma FourOfAKindIff(cards: seq<Card>)
    requires |cards| == 5
    ensures CheckFourOfAKind(cards).Some? <==> exists v :: Count(cards, v) == 4
    ensures CheckFourOfAKind(cards).Some? ==>
      var e := CheckFourOfAKind(cards).value;
      Count(cards, e.primaryValue) == 4 && |e.kickers| == 1 && Count(cards, e.kickers[0]) == 1
  {
    var keys := RankKeys(cards);
    if exists v :: Count(cards, v) == 4 {
      var v :| Count(cards, v) == 4;
      assert v in keys by { RankKeysFacts(cards); }
    }
    var r := CheckFourOfAKind(cards);
    if r.Some? {
      var quad := FirstWithCount(cards, keys, 4).value;
      QuadLeavesAnotherRank(cards, quad);
      var k := FirstNotIn(keys, [quad]).value;
      assert r.value.kickers[0] in multiset([k]);
      assert Count(cards, k) > 0 by { RankKeysFacts(cards); }
      CountTwoBound(cards, quad, k);
    }
  }

  /**
   * `checkFullHouse`: one rank value held by three cards and one by two; the
   * primary value is the three's, the secondary the pair's.
   */
  lemma FullHouseIff(cards: seq<Card>)
    requires |cards| == 5
    ensures CheckFullHouse(cards).Some? <==>
      (exists v :: Count(cards, v) == 3) && (exists w :: Count(cards, w) == 2)
    ensures CheckFullHouse(cards).Some? ==>
      var e := CheckFullHouse(cards).value;
      Count(cards, e.primaryValue) == 3 && Count(cards, e.secondaryValue) == 2 && e.kickers == []
  {
    var keys := RankKeys(cards);
    if exists v :: Count(cards, v) == 3 {
      var v :| Count(cards, v) == 3;
      assert v in keys by { RankKeysFacts(cards); }
    }
    if exists w :: Count(cards, w) == 2 {
      var w :| Count(cards, w) == 2;
      assert w in keys by { RankKeysFacts(cards); }
    }
  }

  /**
   * `checkFlush`: one suit; the primary value and the kickers are all five
   * rank values, highest first.
   */
  lemma FlushIff(cards: seq<Card>)
    requires |cards| == 5
    ensures CheckFlush(cards).Some? <==> IsFlush(cards)
    ensures CheckFlush(cards).Some? ==>
      [CheckFlush(cards).value.primaryValue] + CheckFlush(cards).value.kickers == RanksDesc(cards)
  {
    var ranks := RanksDesc(cards);
    SortedTailUnchanged(ranks);
    assert ranks == [ranks[0]] + ranks[1..];
  }

  /**
   * `checkThreeOfAKind`: some rank value held by three cards; it is the
   * primary value, and the kickers are the other rank values present, highest first.
   */
  lemma ThreeOfAKindIff(cards: seq<Card>)
    requires |cards| == 5
    ensures CheckThreeOfAKind(cards).Some? <==> exists v :: Count(cards, v) == 3
    ensures CheckThreeOfAKind(cards).Some? ==>
      var e := CheckThreeOfAKind(cards).value;
      Count(cards, e.primaryValue) == 3 && StrictlyDesc(e.kickers)
      && forall x :: x in e.kickers <==> Count(cards, x) > 0 && x != e.primaryValue
  {
    RankKeysFacts(cards);
    var keys := RankKeys(cards);
    if exists v :: Count(cards, v) == 3 {
      var v :| Count(cards, v) == 3;
      assert v in keys;
    }
    var r := CheckThreeOfAKind(cards);
    if r.Some? {
      var trips := FirstWithCount(cards, keys, 3).value;
      ExceptDescending(keys, trips);
      StrictlyDescSorted(Except(keys, trips));
    }
  }

  /**
   * `checkTwoPair`: two different rank values each held by two cards; the
   * higher is the primary value, the lower the secondary, and the kicker is
   * the fifth card's rank.
   */
  lemma TwoPairIff(cards: seq<Card>)
    requires |cards| == 5
    ensures CheckTwoPair(cards).Some? <==>
      exists p, q :: p != q && Count(cards, p) == 2 && Count(cards, q) == 2
    ensures CheckTwoPair(cards).Some? ==>
      var e := CheckTwoPair(cards).value;
      Count(cards, e.primaryValue) == 2 && Count(cards, e.secondaryValue) == 2
      && e.primaryValue > e.secondaryValue
      && |e.kickers| == 1 && Count(cards, e.kickers[0]) == 1
  {
    var pairs := PairRanks(cards);
    PairRanksFacts(cards);
    if exists p, q :: p != q && Count(cards, p) == 2 && Count(cards, q) == 2 {
      var p, q :| p != q && Count(cards, p) == 2 && Count(cards, q) == 2;
      assert p in pairs && q in pairs;
      if |pairs| > 2 {
        assert pairs[0] in pairs && pairs[1] in pairs && pairs[2] in pairs;
        CountThreeBound(cards, pairs[0], pairs[1], pairs[2]);
        assert false;
      }
    }
    var r := CheckTwoPair(cards);
    if r.Some? {
      assert pairs[0] in pairs && pairs[1] in pairs;
      RankKeysFacts(cards);
      PairsLeaveAnotherRank(cards);
      var k := FirstNotIn(RankKeys(cards), pairs).value;
      assert r.value.kickers[0] in multiset([k]);
      CountThreeBound(cards, pairs[0], pairs[1], k);
    }
  }

  /**
   * `checkPair`: some rank value held by two cards; it is the primary value,
   * and the kickers are the other rank values present, highest first.
   */
  lemma PairIff(cards: seq<Card>)
    requires |cards| == 5
    ensures CheckPair(cards).Some? <==> exists v :: Count(cards, v) == 2
    ensures CheckPair(cards).Some? ==>
      var e := CheckPair(cards).value;
      Count(cards, e.primaryValue) == 2 && StrictlyDesc(e.kickers)
      && forall x :: x in e.kickers <==> Count(cards, x) > 0 && x != e.primaryValue
  {
    RankKeysFacts(cards);
    var keys := RankKeys(cards);
    if exists v :: Count(cards, v) == 2 {
      var v :| Count(cards, v) == 2;
      assert v in keys;
    }
    var r := CheckPair(cards);
    if r.Some? {
      var pair := FirstWithCount(cards, keys, 2).value;
      ExceptDescending(keys, pair);
      StrictlyDescSorted(Except(keys, pair));
    }
  }

  /** `checkHighCard`: the primary value and the kickers are all five rank values, highest first. */
  lemma HighCardValues(cards: seq<Card>)
    requires |cards| == 5
    ensures [CheckHighCard(cards).primaryValue] + CheckHighCard(cards).kickers == RanksDesc(cards)
  {
    var ranks := RanksDesc(cards);
    SortedTailUnchanged(ranks);
    assert ranks == [ranks[0]] + ranks[1..];
  }

  /**
   * A list of distinct values naming exactly the ranks present other than `t`,
   * where no such rank repeats, is as long as the cards not of rank `t`.
   */
  lemma DistinctRestCount(cards: seq<Card>, t: int, ks: seq<int>)
    requires StrictlyDesc(ks)
    requires forall x :: x in ks <==> Count(cards, x) > 0 && x != t
    requires forall v :: v != t ==> Count(cards, v) <= 1
    ensures |ks| == |cards| - Count(cards, t)
  {
    var s := RankValues(cards);
    forall v | v != t ensures multiset(s)[v] <= 1 {
      assert Count(cards, v) <= 1;
    }
    DistinctApartFrom(s, t);
    assert ToSet(ks) == ToSet(s) - {t} by {
      forall x ensures x in ks <==> x in s && x != t {
        assert x in s <==> x in multiset(s);
      }
    }
    assert PairwiseDistinct(ks);
    NoDuplicatesIff(ks);
  }

  /** Past a failed full-house check, a rank held three times leaves no rank held twice. */
  lemma NoPairBesideTrips(cards: seq<Card>, trips: int)
    requires |cards| == 5 && CheckFullHouse(cards).None? && Count(cards, trips) == 3
    ensures forall w :: Count(cards, w) != 2
  {
    FullHouseIff(cards);
  }

  /**
   * A three-of-a-kind evaluation whose kickers are the other ranks present,
   * when no rank is held twice, carries two kickers.
   */
  lemma TripsKickersFit(cards: seq<Card>, e: HandEvaluation)
    requires |cards| == 5 && e.rank == ThreeOfAKind && Count(cards, e.primaryValue) == 3
    requires StrictlyDesc(e.kickers)
    requires forall x :: x in e.kickers <==> Count(cards, x) > 0 && x != e.primaryValue
    requires forall w :: Count(cards, w) != 2
    ensures KickersFit(e)
  {
    forall v | v != e.primaryValue ensures Count(cards, v) <= 1 {
      CountTwoBound(cards, e.primaryValue, v);
    }
    DistinctRestCount(cards, e.primaryValue, e.kickers);
  }

  /** Three of a kind reached past a failed full-house check: the other two ranks differ. */
  lemma TripsKickers(cards: seq<Card>)
    requires |cards| == 5 && CheckFullHouse(cards).None? && CheckThreeOfAKind(cards).Some?
    ensures KickersFit(CheckThreeOfAKind(cards).value)
  {
    var e := CheckThreeOfAKind(cards).value;
    ThreeOfAKindIff(cards);
    NoPairBesideTrips(cards, e.primaryValue);
    TripsKickersFit(cards, e);
  }

  /** A pair reached past failed three-of-a-kind and two-pair checks: the other three ranks differ. */
  lemma PairKickers(cards: seq<Card>)
    requires |cards| == 5 && CheckThreeOfAKind(cards).None? && CheckTwoPair(cards).None?
    requires CheckPair(cards).Some?
    ensures KickersFit(CheckPair(cards).value)
  {
    var e := CheckPair(cards).value;
    PairIff(cards);
    ThreeOfAKindIff(cards);
    TwoPairIff(cards);
    forall v | v != e.primaryValue ensures Count(cards, v) <= 1 {
      CountTwoBound(cards, e.primaryValue, v);
    }
    DistinctRestCount(cards, e.primaryValue, e.kickers);
  }

  /**
   * The evaluation from `stage` on carries the kicker count of its category,
   * given that the checks before `stage` that decide it have failed.
   */
  lemma {:induction false} EvaluateFromKickers(sorted: seq<Card>, stage: nat)
    requires |sorted| == 5 && stage <= 9
    requires stage > 3 ==> CheckFullHouse(sorted).None?
    requires stage > 6 ==> CheckThreeOfAKind(sorted).None?
    requires stage > 7 ==> CheckTwoPair(sorted).None?
    ensures KickersFit(EvaluateFrom(sorted, stage))
    decreases 9 - stage
  {
    if stage < 9 {
      var r := CheckAt(sorted, stage);
      if r.None? {
        assert EvaluateFrom(sorted, stage) == EvaluateFrom(sorted, stage + 1);
        EvaluateFromKickers(sorted, stage + 1);
      } else {
        assert EvaluateFrom(sorted, stage) == r.value;
        if stage == 6 {
          TripsKickers(sorted);
        } else if stage == 8 {
          PairKickers(sorted);
        }
      }
    }
  }

  /** Every evaluation of five cards carries the kicker count of its category. */
  lemma EvaluateFiveKickers(cards: seq<Card>)
    requires |cards| == 5
    ensures KickersFit(EvaluateFive(cards))
  {
    EvaluateFromKickers(SortByRank(cards), 0);
  }

  /**
   * Two evaluations carrying the kicker counts of their categories are always
   * ordered one way or the other, or of the same strength.
   */
  lemma FittingComparable(a: HandEvaluation, b: HandEvaluation)
    requires KickersFit(a) && KickersFit(b)
    ensures Less(a, b) || SameStrength(a, b) || Less(b, a)
  {
    HandRankValueInjective(a.rank, b.rank);
    if a.rank == b.rank {
      Trichotomy(a, b);
    }
  }

  /** Every two evaluations of the five-card selections of a hand are comparable. */
  lemma SelectionsComparable(cards: seq<Card>)
    requires |cards| >= 5
    ensures forall h :: h in Combinations(cards, 5) ==> |h| == 5
    ensures Comparable(Evaluations(Combinations(cards, 5)))
  {
    var hands := Combinations(cards, 5);
    HandSelections(cards);
    var es := Evaluations(hands);
    forall i | 0 <= i < |es| ensures KickersFit(es[i]) {
      assert hands[i] in hands;
      EvaluateFiveKickers(hands[i]);
    }
    forall i, j | 0 <= i < |es| && 0 <= j < |es|
      ensures Less(es[i], es[j]) || SameStrength(es[i], es[j]) || Less(es[j], es[i])
    {
      FittingComparable(es[i], es[j]);
    }
  }

  /**
   * `findBestFiveCardHand` keeps the first maximum of the selections: every
   * selection before the kept one is strictly lower, and none is higher.
   */
  lemma BestHandIsFirstMax(cards: seq<Card>)
    requires |cards| > 5
    ensures forall h :: h in Combinations(cards, 5) ==> |h| == 5
    ensures var es := Evaluations(Combinations(cards, 5));
      |es| > 0 && BestHand(cards) == es[BestIndex(es)]
      && (forall m :: 0 <= m < BestIndex(es) ==> Less(es[m], BestHand(cards)))
      && (forall m :: 0 <= m < |es| ==> !Less(BestHand(cards), es[m]))
  {
    HandSelections(cards);
    var es := Evaluations(Combinations(cards, 5));
    SelectionsComparable(cards);
    BestIndexIsFirst(es);
    BestIndexIsMax(es);
  }

  /** What `evaluateHand` returns carries the kicker count of its category. */
  lemma BestHandKickers(cards: seq<Card>)
    requires |cards| >= 5
    ensures KickersFit(BestHand(cards))
  {
    if |cards| == 5 {
      EvaluateFiveKickers(cards);
    } else {
      var hands := Combinations(cards, 5);
      HandSelections(cards);
      var es := Evaluations(hands);
      var k := BestIndex(es);
      assert hands[k] in hands;
      EvaluateFiveKickers(hands[k]);
    }
  }
}
