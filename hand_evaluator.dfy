/**
 * Classification of five cards into a hand category with its tie-break values,
 * and the best five-card hand of six or seven cards.
 */
module HandEvaluator {
  import opened Wrappers
  import opened Cards
  import opened Sorting
  import opened Sequences
  import opened HandRanks
  import opened Combinatorics

  function RankKey(c: Card): int
  {
    RankValue(c.rank)
  }

  /** `cards.map { $0.rank.rawValue }`. */
  function RankValues(cards: seq<Card>): (r: seq<int>)
    ensures |r| == |cards|
  {
    seq(|cards|, i requires 0 <= i < |cards| => RankValue(cards[i].rank))
  }

  /** `cards.map { $0.rank.rawValue }.sorted(by: >)`. */
  function RanksDesc(cards: seq<Card>): (r: seq<int>)
    ensures |r| == |cards|
  {
    SortDesc(RankValues(cards))
  }

  /** How many of the cards have rank value `v`: the rank-count dictionary's entry. */
  function Count(cards: seq<Card>, v: int): nat
  {
    multiset(RankValues(cards))[v]
  }

  /**
   * The rank values from `hi` down to 2 that occur among the cards: the keys
   * of the rank-count dictionary, visited from the highest.
   */
  function KeysFrom(cards: seq<Card>, hi: int): seq<int>
    decreases hi
  {
    if hi < 2 then []
    else (if Count(cards, hi) > 0 then [hi] else []) + KeysFrom(cards, hi - 1)
  }

  function RankKeys(cards: seq<Card>): seq<int>
  {
    KeysFrom(cards, 14)
  }

  /** `for (rank, count) in rankCounts where count == n`: the first such key. */
  function FirstWithCount(cards: seq<Card>, keys: seq<int>, n: nat): (r: Option<int>)
    ensures r.Some? ==> r.value in keys && Count(cards, r.value) == n
    ensures r.None? ==> forall v :: v in keys ==> Count(cards, v) != n
  {
    if keys == [] then None
    else if Count(cards, keys[0]) == n then Some(keys[0])
    else FirstWithCount(cards, keys[1..], n)
  }

  /** The loop of `checkFullHouse` keeps overwriting: the last key with count n. */
  function LastWithCount(cards: seq<Card>, keys: seq<int>, n: nat): (r: Option<int>)
    ensures r.Some? ==> r.value in keys && Count(cards, r.value) == n
    ensures r.None? ==> forall v :: v in keys ==> Count(cards, v) != n
  {
    if keys == [] then None
    else match LastWithCount(cards, keys[1..], n)
      case Some(v) => Some(v)
      case None => if Count(cards, keys[0]) == n then Some(keys[0]) else None
  }

  /** `keys.first { !excluded.contains($0) }`. */
  function FirstNotIn(keys: seq<int>, excluded: seq<int>): (r: Option<int>)
    ensures r.Some? ==> r.value in keys && r.value !in excluded
    ensures r.None? ==> forall v :: v in keys ==> v in excluded
  {
    if keys == [] then None
    else if keys[0] !in excluded then Some(keys[0])
    else FirstNotIn(keys[1..], excluded)
  }

  /** `keys.filter { $0 != v }`. */
  function Except(keys: seq<int>, v: int): (r: seq<int>)
    ensures forall x :: x in r <==> x in keys && x != v
  {
    if keys == [] then []
    else (if keys[0] != v then [keys[0]] else []) + Except(keys[1..], v)
  }

  /** `rankCounts.filter { $0.value == n }.keys`. */
  function KeysWithCount(cards: seq<Card>, keys: seq<int>, n: nat): (r: seq<int>)
    ensures forall x :: x in r <==> x in keys && Count(cards, x) == n
  {
    if keys == [] then []
    else (if Count(cards, keys[0]) == n then [keys[0]] else []) + KeysWithCount(cards, keys[1..], n)
  }

  /** `isFlush`: every card has the first card's suit. */
  predicate IsFlush(cards: seq<Card>)
    requires |cards| >= 1
  {
    forall i :: 0 <= i < |cards| ==> cards[i].suit == cards[0].suit
  }

  /** `isWheel`: the set of rank values is exactly {A, 2, 3, 4, 5}. */
  predicate IsWheel(cards: seq<Card>)
  {
    ToSet(RankValues(cards)) == {14, 2, 3, 4, 5}
  }

  /** Each value one more than the value before it. */
  predicate Consecutive(s: seq<int>)
  {
    forall i :: 1 <= i < |s| ==> s[i] == s[i - 1] + 1
  }

  /** What `isStraight` decides: ascending ranks consecutive, or else the wheel. */
  predicate StraightRanks(cards: seq<Card>)
  {
    Consecutive(SortAsc(RankValues(cards))) || IsWheel(cards)
  }

  /** `isStraight`: scans the ascending ranks and falls back to the wheel test at the first gap. */
  method IsStraight(cards: seq<Card>) returns (b: bool)
    requires |cards| >= 1
    ensures b == StraightRanks(cards)
  {
    var ranks := SortAsc(RankValues(cards));
    for i := 1 to |ranks|
      invariant forall m :: 1 <= m < i ==> ranks[m] == ranks[m - 1] + 1
    {
      if ranks[i] != ranks[i - 1] + 1 {
        return IsWheel(cards);
      }
    }
    return true;
  }

  /** The largest value of a non-empty list: `max()!`. */
  function MaxOf(s: seq<int>): (m: int)
    requires s != []
    ensures m in s
    ensures forall x :: x in s ==> x <= m
  {
    if |s| == 1 then s[0]
    else
      var rest := MaxOf(s[1..]);
      assert s == [s[0]] + s[1..];
      if s[0] >= rest then s[0] else rest
  }

  /** `getHighCardForStraight`: 5 for the wheel, otherwise the highest rank. */
  function HighCardForStraight(cards: seq<Card>): int
    requires |cards| >= 1
  {
    if IsWheel(cards) then 5 else MaxOf(RankValues(cards))
  }

  /** Comparing with the first card's suit decides whether all cards share one suit. */
  lemma FlushIsOneSuit(cards: seq<Card>)
    requires |cards| >= 1
    ensures IsFlush(cards) <==> forall c, d :: c in cards && d in cards ==> c.suit == d.suit
  {
  }

  /** The rank set A 2 3 4 5 needs at least five cards. */
  lemma WheelHasFiveCards(cards: seq<Card>)
    ensures IsWheel(cards) ==> |cards| >= 5
  {
    SetSizeAtMostLength(RankValues(cards));
  }

  /** Outside the wheel the straight's high card is a rank held, and no rank held exceeds it. */
  lemma HighCardIsTopRank(cards: seq<Card>)
    requires |cards| >= 1
    ensures !IsWheel(cards) ==> HighCardForStraight(cards) in RankValues(cards)
    ensures !IsWheel(cards) ==> forall v :: v in RankValues(cards) ==> v <= HighCardForStraight(cards)
  {
  }

  /** `getRankCounts`: one dictionary increment per card. */
  method GetRankCounts(cards: seq<Card>) returns (counts: map<int, int>)
    ensures forall v :: v in counts <==> Count(cards, v) > 0
    ensures forall v :: v in counts ==> counts[v] == Count(cards, v)
  {
    counts := map[];
    for i := 0 to |cards|
      invariant forall v :: v in counts <==> Count(cards[..i], v) > 0
      invariant forall v :: v in counts ==> counts[v] == Count(cards[..i], v)
    {
      var v := RankValue(cards[i].rank);
      CountSnoc(cards, i);
      counts := counts[v := (if v in counts then counts[v] else 0) + 1];
    }
    assert cards[..|cards|] == cards;
  }

  /** Counting over one more card adds one for that card's rank and nothing else. */
  lemma CountSnoc(cards: seq<Card>, i: nat)
    requires i < |cards|
    ensures forall v ::
      Count(cards[..i + 1], v) == Count(cards[..i], v) + (if v == RankValue(cards[i].rank) then 1 else 0)
  {
    assert RankValues(cards[..i + 1]) == RankValues(cards[..i]) + [RankValue(cards[i].rank)];
  }

  lemma CountCons(cards: seq<Card>)
    requires cards != []
    ensures forall v ::
      Count(cards, v) == (if v == RankValue(cards[0].rank) then 1 else 0) + Count(cards[1..], v)
  {
    assert RankValues(cards) == [RankValue(cards[0].rank)] + RankValues(cards[1..]);
  }

  /** A rank value is counted exactly when some card has it. */
  lemma CountPositiveIff(cards: seq<Card>, v: int)
    ensures Count(cards, v) > 0 <==> exists i :: 0 <= i < |cards| && RankValue(cards[i].rank) == v
  {
    var r := RankValues(cards);
    if Count(cards, v) > 0 {
      assert v in r;
      var i :| 0 <= i < |r| && r[i] == v;
      assert RankValue(cards[i].rank) == v;
    }
    if exists i :: 0 <= i < |cards| && RankValue(cards[i].rank) == v {
      var i :| 0 <= i < |cards| && RankValue(cards[i].rank) == v;
      assert r[i] == v;
    }
  }

  lemma {:induction false} KeysFromMembers(cards: seq<Card>, hi: int)
    ensures forall v :: v in KeysFrom(cards, hi) <==> 2 <= v <= hi && Count(cards, v) > 0
    decreases hi
  {
    if hi >= 2 {
      KeysFromMembers(cards, hi - 1);
    }
  }

  /** No two positions of a list hold the same value, larger first. */
  predicate StrictlyDesc(s: seq<int>)
  {
    forall i, j :: 0 <= i < j < |s| ==> s[i] > s[j]
  }

  lemma {:induction false} KeysFromDescending(cards: seq<Card>, hi: int)
    ensures StrictlyDesc(KeysFrom(cards, hi))
    decreases hi
  {
    if hi >= 2 {
      KeysFromDescending(cards, hi - 1);
      KeysFromMembers(cards, hi - 1);
      var rest := KeysFrom(cards, hi - 1);
      assert forall j :: 0 <= j < |rest| ==> rest[j] in rest;
    }
  }

  /** The keys are the rank values present, each once, highest first. */
  lemma RankKeysFacts(cards: seq<Card>)
    ensures forall v :: v in RankKeys(cards) <==> Count(cards, v) > 0
    ensures StrictlyDesc(RankKeys(cards))
  {
    KeysFromMembers(cards, 14);
    KeysFromDescending(cards, 14);
    forall v | Count(cards, v) > 0 ensures 2 <= v <= 14 {
      CountPositiveIff(cards, v);
    }
  }

  lemma {:induction false} CountAllSame(cards: seq<Card>, v: int)
    requires forall i :: 0 <= i < |cards| ==> RankValue(cards[i].rank) == v
    ensures Count(cards, v) == |cards|
  {
    if cards != [] {
      CountCons(cards);
      CountAllSame(cards[1..], v);
    }
  }

  lemma {:induction false} CountTwoRanks(cards: seq<Card>, p: int, q: int)
    requires p != q
    requires forall i :: 0 <= i < |cards| ==> RankValue(cards[i].rank) in {p, q}
    ensures Count(cards, p) + Count(cards, q) == |cards|
  {
    if cards != [] {
      CountCons(cards);
      CountTwoRanks(cards[1..], p, q);
    }
  }

  /** A strictly descending list is its own descending sort. */
  lemma StrictlyDescSorted(s: seq<int>)
    requires StrictlyDesc(s)
    ensures SortDesc(s) == s
  {
    assert SortedDescBy(s, IntKey);
    SortedDescUnique(SortDesc(s), s);
  }

  lemma PrependDescending(x: int, r: seq<int>)
    requires StrictlyDesc(r) && forall y :: y in r ==> y < x
    ensures StrictlyDesc([x] + r)
  {
    var xr := [x] + r;
    forall i, j | 0 <= i < j < |xr| ensures xr[i] > xr[j] {
      assert xr[j] == r[j - 1] && xr[j] in r;
      if i > 0 {
        assert xr[i] == r[i - 1];
      }
    }
  }

  lemma TailDescending(keys: seq<int>)
    requires keys != [] && StrictlyDesc(keys)
    ensures StrictlyDesc(keys[1..]) && forall x :: x in keys[1..] ==> x < keys[0]
  {
    var rest := keys[1..];
    forall x | x in rest ensures x < keys[0] {
      var j :| 0 <= j < |rest| && rest[j] == x;
      assert keys[j + 1] == x;
    }
    forall i, j | 0 <= i < j < |rest| ensures rest[i] > rest[j] {
      assert rest[i] == keys[i + 1] && rest[j] == keys[j + 1];
    }
  }

  lemma {:induction false} KeysWithCountDescending(cards: seq<Card>, keys: seq<int>, n: nat)
    requires StrictlyDesc(keys)
    ensures StrictlyDesc(KeysWithCount(cards, keys, n))
  {
    if keys != [] {
      TailDescending(keys);
      KeysWithCountDescending(cards, keys[1..], n);
      if Count(cards, keys[0]) == n {
        PrependDescending(keys[0], KeysWithCount(cards, keys[1..], n));
      }
    }
  }

  lemma {:induction false} ExceptDescending(keys: seq<int>, v: int)
    requires StrictlyDesc(keys)
    ensures StrictlyDesc(Except(keys, v))
  {
    if keys != [] {
      TailDescending(keys);
      ExceptDescending(keys[1..], v);
      if keys[0] != v {
        PrependDescending(keys[0], Except(keys[1..], v));
      }
    }
  }

  /** With four cards of one rank among five, another rank is present. */
  lemma QuadLeavesAnotherRank(cards: seq<Card>, quad: int)
    requires |cards| == 5 && Count(cards, quad) == 4
    ensures FirstNotIn(RankKeys(cards), [quad]).Some?
  {
    if forall i :: 0 <= i < |cards| ==> RankValue(cards[i].rank) == quad {
      CountAllSame(cards, quad);
      assert false;
    }
    var i :| 0 <= i < |cards| && RankValue(cards[i].rank) != quad;
    var v := RankValue(cards[i].rank);
    CountPositiveIff(cards, v);
    RankKeysFacts(cards);
    assert v in RankKeys(cards) && v !in [quad];
  }

  /** The pair ranks of `checkTwoPair`, highest first. */
  function PairRanks(cards: seq<Card>): seq<int>
  {
    SortDesc(KeysWithCount(cards, RankKeys(cards), 2))
  }

  /** Two distinct pair ranks, each held by exactly two cards. */
  lemma PairRanksFacts(cards: seq<Card>)
    ensures StrictlyDesc(PairRanks(cards))
    ensures forall v :: v in PairRanks(cards) <==> Count(cards, v) == 2
  {
    RankKeysFacts(cards);
    var w := KeysWithCount(cards, RankKeys(cards), 2);
    KeysWithCountDescending(cards, RankKeys(cards), 2);
    StrictlyDescSorted(w);
  }

  /** With two pairs among five cards, a fifth rank is present. */
  lemma PairsLeaveAnotherRank(cards: seq<Card>)
    requires |cards| == 5 && |PairRanks(cards)| == 2
    ensures FirstNotIn(RankKeys(cards), PairRanks(cards)).Some?
  {
    var pairs := PairRanks(cards);
    PairRanksFacts(cards);
    var p, q := pairs[0], pairs[1];
    assert p in pairs && q in pairs;
    if forall i :: 0 <= i < |cards| ==> RankValue(cards[i].rank) in {p, q} {
      CountTwoRanks(cards, p, q);
      assert false;
    }
    var i :| 0 <= i < |cards| && RankValue(cards[i].rank) !in {p, q};
    var v := RankValue(cards[i].rank);
    CountPositiveIff(cards, v);
    RankKeysFacts(cards);
    assert v in RankKeys(cards) && v !in pairs;
  }

  function CheckRoyalFlush(cards: seq<Card>): (r: Option<HandEvaluation>)
    requires |cards| == 5
    ensures r.Some? ==> r.value.rank == RoyalFlush && KickersFit(r.value) && r.value.cards == cards
  {
    if IsFlush(cards) && RanksDesc(cards) == [14, 13, 12, 11, 10] then
      FitsWithoutKickers(RoyalFlush, 14, 0, cards);
      Some(MakeEvaluation(RoyalFlush, 14, 0, [], cards))
    else None
  }

  function CheckStraightFlush(cards: seq<Card>): (r: Option<HandEvaluation>)
    requires |cards| == 5
    ensures r.Some? ==> r.value.rank == StraightFlush && KickersFit(r.value) && r.value.cards == cards
  {
    if IsFlush(cards) && StraightRanks(cards) then
      FitsWithoutKickers(StraightFlush, HighCardForStraight(cards), 0, cards);
      Some(MakeEvaluation(StraightFlush, HighCardForStraight(cards), 0, [], cards))
    else None
  }

  function CheckFourOfAKind(cards: seq<Card>): (r: Option<HandEvaluation>)
    requires |cards| == 5
    ensures r.Some? ==> r.value.rank == FourOfAKind && KickersFit(r.value) && r.value.cards == cards
  {
    var keys := RankKeys(cards);
    match FirstWithCount(cards, keys, 4)
    case None => None
    case Some(quad) =>
      QuadLeavesAnotherRank(cards, quad);
      var kicker := FirstNotIn(keys, [quad]).value;
      FitsWithOneKicker(FourOfAKind, quad, 0, kicker, cards);
      Some(MakeEvaluation(FourOfAKind, quad, 0, [kicker], cards))
  }

  function CheckFullHouse(cards: seq<Card>): (r: Option<HandEvaluation>)
    requires |cards| == 5
    ensures r.Some? ==> r.value.rank == FullHouse && KickersFit(r.value) && r.value.cards == cards
  {
    var keys := RankKeys(cards);
    var three := LastWithCount(cards, keys, 3);
    var pair := LastWithCount(cards, keys, 2);
    if three.Some? && pair.Some? then
      FitsWithoutKickers(FullHouse, three.value, pair.value, cards);
      Some(MakeEvaluation(FullHouse, three.value, pair.value, [], cards))
    else None
  }

  function CheckFlush(cards: seq<Card>): (r: Option<HandEvaluation>)
    requires |cards| == 5
    ensures r.Some? ==> r.value.rank == Flush && KickersFit(r.value) && r.value.cards == cards
  {
    if IsFlush(cards) then
      var ranks := RanksDesc(cards);
      FitsWithFourKickers(Flush, ranks[0], ranks[1..], cards);
      Some(MakeEvaluation(Flush, ranks[0], 0, ranks[1..], cards))
    else None
  }

  function CheckStraight(cards: seq<Card>): (r: Option<HandEvaluation>)
    requires |cards| == 5
    ensures r.Some? ==> r.value.rank == Straight && KickersFit(r.value) && r.value.cards == cards
  {
    if StraightRanks(cards) then
      FitsWithoutKickers(Straight, HighCardForStraight(cards), 0, cards);
      Some(MakeEvaluation(Straight, HighCardForStraight(cards), 0, [], cards))
    else None
  }

  function CheckThreeOfAKind(cards: seq<Card>): (r: Option<HandEvaluation>)
    requires |cards| == 5
    ensures r.Some? ==> r.value.rank == ThreeOfAKind && r.value.cards == cards
  {
    var keys := RankKeys(cards);
    match FirstWithCount(cards, keys, 3)
    case None => None
    case Some(trips) => Some(MakeEvaluation(ThreeOfAKind, trips, 0, Except(keys, trips), cards))
  }

  function CheckTwoPair(cards: seq<Card>): (r: Option<HandEvaluation>)
    requires |cards| == 5
    ensures r.Some? ==> r.value.rank == TwoPair && KickersFit(r.value) && r.value.cards == cards
  {
    var keys := RankKeys(cards);
    var pairs := PairRanks(cards);
    if |pairs| == 2 then
      PairsLeaveAnotherRank(cards);
      var kicker := FirstNotIn(keys, pairs).value;
      FitsWithOneKicker(TwoPair, pairs[0], pairs[1], kicker, cards);
      Some(MakeEvaluation(TwoPair, pairs[0], pairs[1], [kicker], cards))
    else None
  }

  function CheckPair(cards: seq<Card>): (r: Option<HandEvaluation>)
    requires |cards| == 5
    ensures r.Some? ==> r.value.rank == Pair && r.value.cards == cards
  {
    var keys := RankKeys(cards);
    match FirstWithCount(cards, keys, 2)
    case None => None
    case Some(pair) => Some(MakeEvaluation(Pair, pair, 0, Except(keys, pair), cards))
  }

  function CheckHighCard(cards: seq<Card>): (e: HandEvaluation)
    requires |cards| == 5
    ensures e.rank == HighCard && KickersFit(e) && e.cards == cards
  {
    var ranks := RanksDesc(cards);
    FitsWithFourKickers(HighCard, ranks[0], ranks[1..], cards);
    MakeEvaluation(HighCard, ranks[0], 0, ranks[1..], cards)
  }

  /** The five cards ordered by rank, highest first, as `evaluateFiveCards` sorts them. */
  function SortByRank(cards: seq<Card>): (r: seq<Card>)
    ensures |r| == |cards| && multiset(r) == multiset(cards)
    ensures SortedDescBy(r, RankKey)
  {
    var r := SortDescBy(cards, RankKey);
    assert |r| == |multiset(r)| == |multiset(cards)| == |cards|;
    r
  }

  /** The check at position `stage` in the order `evaluateFiveCards` tries them, strongest first. */
  function CheckAt(sorted: seq<Card>, stage: nat): (r: Option<HandEvaluation>)
    requires |sorted| == 5 && stage < 9
    ensures r.Some? ==> r.value.cards == sorted
    ensures r.Some? && stage != 6 && stage != 8 ==> KickersFit(r.value)
    ensures stage == 3 ==> r == CheckFullHouse(sorted)
    ensures stage == 6 ==> r == CheckThreeOfAKind(sorted)
    ensures stage == 7 ==> r == CheckTwoPair(sorted)
    ensures stage == 8 ==> r == CheckPair(sorted)
  {
    if stage == 0 then CheckRoyalFlush(sorted)
    else if stage == 1 then CheckStraightFlush(sorted)
    else if stage == 2 then CheckFourOfAKind(sorted)
    else if stage == 3 then CheckFullHouse(sorted)
    else if stage == 4 then CheckFlush(sorted)
    else if stage == 5 then CheckStraight(sorted)
    else if stage == 6 then CheckThreeOfAKind(sorted)
    else if stage == 7 then CheckTwoPair(sorted)
    else CheckPair(sorted)
  }

  /** The checks from `stage` on: the first that matches decides, high card when none does. */
  function EvaluateFrom(sorted: seq<Card>, stage: nat): (e: HandEvaluation)
    requires |sorted| == 5 && stage <= 9
    ensures e.cards == sorted
    decreases 9 - stage
  {
    if stage == 9 then CheckHighCard(sorted)
    else
      var r := CheckAt(sorted, stage);
      if r.Some? then r.value else EvaluateFrom(sorted, stage + 1)
  }

  /** The first check that matches, after none before it did, gives the result. */
  lemma {:induction false} FirstMatchDecides(sorted: seq<Card>, stage: nat, k: nat)
    requires |sorted| == 5 && stage <= k < 9
    requires forall j :: stage <= j < k ==> CheckAt(sorted, j).None?
    requires CheckAt(sorted, k).Some?
    ensures EvaluateFrom(sorted, stage) == CheckAt(sorted, k).value
    decreases k - stage
  {
    if stage < k {
      FirstMatchDecides(sorted, stage + 1, k);
    }
  }

  /** When no check matches, the result is the high-card evaluation. */
  lemma {:induction false} NoMatchIsHighCard(sorted: seq<Card>, stage: nat)
    requires |sorted| == 5 && stage <= 9
    requires forall j :: stage <= j < 9 ==> CheckAt(sorted, j).None?
    ensures EvaluateFrom(sorted, stage) == CheckHighCard(sorted)
    decreases 9 - stage
  {
    if stage < 9 {
      NoMatchIsHighCard(sorted, stage + 1);
    }
  }

  /**
   * `evaluateFiveCards`: the rank-sorted cards go through the checks from the
   * strongest category to the weakest; the first that matches decides.
   */
  function EvaluateFive(cards: seq<Card>): (e: HandEvaluation)
    requires |cards| == 5
    ensures e.cards == SortByRank(cards)
  {
    EvaluateFrom(SortByRank(cards), 0)
  }

  /** `evaluateFiveCards` applied to each five-card selection, in order. */
  function Evaluations(hands: seq<seq<Card>>): (es: seq<HandEvaluation>)
    requires forall h :: h in hands ==> |h| == 5
    ensures |es| == |hands|
  {
    seq(|hands|, i requires 0 <= i < |hands| => EvaluateFive(hands[i]))
  }

  /**
   * The index `findBestFiveCardHand` ends on, having kept index `b` after
   * looking at `es[..i]`: a later evaluation replaces the kept one only when
   * the kept one is lower.
   */
  function BestIndexFrom(es: seq<HandEvaluation>, b: nat, i: nat): (j: nat)
    requires b < i <= |es|
    ensures j < |es|
    decreases |es| - i
  {
    if i == |es| then b
    else BestIndexFrom(es, if Less(es[b], es[i]) then i else b, i + 1)
  }

  function BestIndex(es: seq<HandEvaluation>): nat
    requires |es| > 0
  {
    BestIndexFrom(es, 0, 1)
  }

  /** The five-card selections of at least five cards, all of length five, at least one. */
  lemma HandSelections(cards: seq<Card>)
    requires |cards| >= 5
    ensures forall h :: h in Combinations(cards, 5) ==> |h| == 5
    ensures |Combinations(cards, 5)| >= 1
  {
    CombinationLengths(cards, 5);
    CombinationsCount(cards, 5);
    ChoosePositive(|cards|, 5);
  }

  /**
   * The value of `evaluateHand`: five cards are evaluated directly, more are
   * replaced by the kept best of their five-card selections.
   */
  function BestHand(cards: seq<Card>): HandEvaluation
    requires |cards| >= 5
  {
    if |cards| == 5 then EvaluateFive(cards)
    else
      HandSelections(cards);
      var es := Evaluations(Combinations(cards, 5));
      es[BestIndex(es)]
  }

  /** One step of the scan. */
  lemma BestIndexStep(es: seq<HandEvaluation>, b: nat, i: nat)
    requires b < i < |es|
    ensures BestIndexFrom(es, b, i) == BestIndexFrom(es, if Less(es[b], es[i]) then i else b, i + 1)
  {
  }

  /** One step of the pass, on the evaluations alone: the kept one stays the best of those seen. */
  lemma ScanStep(es: seq<HandEvaluation>, b: nat, i: nat, kept: Option<HandEvaluation>) returns (next: nat)
    requires i < |es|
    requires i == 0 ==> kept.None?
    requires i > 0 ==> b < i && kept == Some(es[b]) && BestIndexFrom(es, b, i) == BestIndex(es)
    ensures next <= i
    ensures (if kept.None? || Less(kept.value, es[i]) then Some(es[i]) else kept) == Some(es[next])
    ensures BestIndexFrom(es, next, i + 1) == BestIndex(es)
  {
    if i > 0 {
      BestIndexStep(es, b, i);
    }
    next := if kept.None? || Less(kept.value, es[i]) then i else b;
  }

  /** `findBestFiveCardHand`: every five-card selection, then one pass keeping the best so far. */
  method FindBestFiveCardHand(cards: seq<Card>) returns (best: HandEvaluation)
    requires |cards| > 5
    ensures best == BestHand(cards)
  {
    var combinations := GenerateCombinations(cards, 5);
    HandSelections(cards);
    ghost var es := Evaluations(combinations);
    assert EvaluatedAt(combinations, es) by {
      forall j | 0 <= j < |es| ensures |combinations[j]| == 5 && es[j] == EvaluateFive(combinations[j]) {
        assert combinations[j] in combinations;
      }
    }
    best := KeepBest(combinations, es);
  }

  /**
   * `es` are the evaluations of the five-card selections, position by
   * position; each one is brought in only where its selection is looked at.
   */
  ghost predicate EvaluatedAt(combinations: seq<seq<Card>>, es: seq<HandEvaluation>)
  {
    |es| == |combinations| &&
    forall j {:trigger combinations[j]} :: 0 <= j < |es| ==>
      |combinations[j]| == 5 && es[j] == EvaluateFive(combinations[j])
  }

  /** `evaluateFiveCards` on the selection at `i`: the evaluation at that position. */
  method EvaluateSelection(combinations: seq<seq<Card>>, ghost es: seq<HandEvaluation>, i: nat) returns (e: HandEvaluation)
    requires EvaluatedAt(combinations, es) && i < |es|
    ensures e == es[i]
  {
    e := EvaluateFive(combinations[i]);
  }

  /**
   * The pass of `findBestFiveCardHand` over the selections: each is
   * evaluated, and replaces the kept evaluation when that one is lower. `es`
   * are the selections' evaluations, linked to them one position at a time.
   */
  method KeepBest(combinations: seq<seq<Card>>, ghost es: seq<HandEvaluation>) returns (best: HandEvaluation)
    requires EvaluatedAt(combinations, es) && |es| > 0
    ensures best == es[BestIndex(es)]
  {
    var bestHand: Option<HandEvaluation> := None;
    ghost var b: nat := 0;
    for i := 0 to |combinations|
      invariant i == 0 ==> bestHand.None?
      invariant i > 0 ==> b < i && bestHand == Some(es[b]) && BestIndexFrom(es, b, i) == BestIndex(es)
    {
      var evaluation := EvaluateSelection(combinations, es, i);
      b := ScanStep(es, b, i, bestHand);
      if bestHand.None? || Less(bestHand.value, evaluation) {
        bestHand := Some(evaluation);
      }
    }
    best := bestHand.value;
  }

  /** `evaluateHand`: five or more cards (fewer stop the program). */
  method EvaluateHand(cards: seq<Card>) returns (e: HandEvaluation)
    requires |cards| >= 5
    ensures e == BestHand(cards)
  {
    if |cards| == 5 {
      return EvaluateFive(cards);
    }
    e := FindBestFiveCardHand(cards);
  }

  /** Nothing the scan has passed, nor anything after it, is above the kept evaluation. */
  lemma {:induction false} BestIndexFromIsMax(es: seq<HandEvaluation>, b: nat, i: nat)
    requires b < i <= |es|
    requires forall m :: 0 <= m < i ==> !Less(es[b], es[m])
    ensures forall m :: 0 <= m < |es| ==> !Less(es[BestIndexFrom(es, b, i)], es[m])
    decreases |es| - i
  {
    if i < |es| {
      if Less(es[b], es[i]) {
        forall m | 0 <= m < i + 1 ensures !Less(es[i], es[m]) {
          LessIsStrict(es[i], es[i]);
          if m < i && Less(es[i], es[m]) {
            LessTransitive(es[b], es[i], es[m]);
          }
        }
        BestIndexFromIsMax(es, i, i + 1);
      } else {
        BestIndexFromIsMax(es, b, i + 1);
      }
    }
  }

  /** No evaluation of the list is above the one the scan keeps. */
  lemma BestIndexIsMax(es: seq<HandEvaluation>)
    requires |es| > 0
    ensures forall m :: 0 <= m < |es| ==> !Less(es[BestIndex(es)], es[m])
  {
    LessIsStrict(es[0], es[0]);
    BestIndexFromIsMax(es, 0, 1);
  }

  /** Every two evaluations of the list are ordered one way or the other, or equal. */
  predicate Comparable(es: seq<HandEvaluation>)
  {
    forall i, j :: 0 <= i < |es| && 0 <= j < |es| ==>
      Less(es[i], es[j]) || SameStrength(es[i], es[j]) || Less(es[j], es[i])
  }

  lemma {:induction false} BestIndexFromIsFirst(es: seq<HandEvaluation>, b: nat, i: nat)
    requires b < i <= |es| && Comparable(es)
    requires forall m :: 0 <= m < b ==> Less(es[m], es[b])
    requires forall m :: b < m < i ==> !Less(es[b], es[m])
    ensures forall m :: 0 <= m < BestIndexFrom(es, b, i) ==> Less(es[m], es[BestIndexFrom(es, b, i)])
    decreases |es| - i
  {
    if i < |es| {
      if Less(es[b], es[i]) {
        forall m | 0 <= m < i ensures Less(es[m], es[i]) {
          if m < b {
            LessTransitive(es[m], es[b], es[i]);
          } else if m > b {
            assert Less(es[m], es[b]) || SameStrength(es[m], es[b]);
            if Less(es[m], es[b]) {
              LessTransitive(es[m], es[b], es[i]);
            }
          }
        }
        BestIndexFromIsFirst(es, i, i + 1);
      } else {
        BestIndexFromIsFirst(es, b, i + 1);
      }
    }
  }

  /**
   * When every two evaluations are comparable, the kept one is the first
   * maximum: everything before it is strictly lower.
   */
  lemma BestIndexIsFirst(es: seq<HandEvaluation>)
    requires |es| > 0 && Comparable(es)
    ensures forall m :: 0 <= m < BestIndex(es) ==> Less(es[m], es[BestIndex(es)])
  {
    BestIndexFromIsFirst(es, 0, 1);
  }

  /** The evaluations of the selections are the evaluations of the picked positions. */
  lemma SelectionEvaluation(cards: seq<Card>, ix: seq<int>) returns (t: nat)
    requires |cards| > 5 && |ix| == 5 && IncreasingWithin(ix, 0, |cards|)
    ensures forall j :: 0 <= j < |ix| ==> 0 <= ix[j] < |cards|
    ensures t < |Combinations(cards, 5)| && Combinations(cards, 5)[t] == Pick(cards, ix)
  {
    var positions := Combinations(Range(0, |cards|), 5);
    PositionSelectionsComplete(0, |cards|, 5, ix);
    CombinationsArePicks(cards, 0, 5);
    assert cards[0..] == cards;
    t :| 0 <= t < |positions| && positions[t] == ix;
    assert PickAll(cards, positions)[t] == Pick(cards, ix);
  }

  /**
   * The best hand is at least as high as the evaluation of every five cards
   * picked from the hand, in their order.
   */
  lemma BestHandIsMax(cards: seq<Card>, ix: seq<int>)
    requires |cards| >= 5 && |ix| == 5 && IncreasingWithin(ix, 0, |cards|)
    ensures forall j :: 0 <= j < |ix| ==> 0 <= ix[j] < |cards|
    ensures !Less(BestHand(cards), EvaluateFive(Pick(cards, ix)))
  {
    if |cards| == 5 {
      PositionSelectionsComplete(0, 5, 5, ix);
      CombinationsOfAll(Range(0, 5));
      assert ix == Range(0, 5);
      assert Pick(cards, ix) == cards;
      LessIsStrict(EvaluateFive(cards), EvaluateFive(cards));
    } else {
      var t := SelectionEvaluation(cards, ix);
      HandSelections(cards);
      var es := Evaluations(Combinations(cards, 5));
      BestIndexIsMax(es);
      assert es[t] == EvaluateFive(Pick(cards, ix));
    }
  }

  /** The selection at position `j` picks five increasing positions of the hand. */
  lemma SelectionAt(cards: seq<Card>, j: nat) returns (ix: seq<int>)
    requires |cards| >= 5 && j < |Combinations(cards, 5)|
    ensures |ix| == 5 && IncreasingWithin(ix, 0, |cards|)
    ensures Combinations(cards, 5)[j] == Pick(cards, ix)
  {
    var positions := Combinations(Range(0, |cards|), 5);
    PositionSelectionsIncrease(0, |cards|, 5);
    CombinationsArePicks(cards, 0, 5);
    assert cards[0..] == cards;
    ix := positions[j];
    assert ix in positions;
  }

  /** The best hand is the evaluation of some five cards picked from the hand. */
  lemma BestHandIsAchieved(cards: seq<Card>) returns (ix: seq<int>)
    requires |cards| >= 5
    ensures |ix| == 5 && IncreasingWithin(ix, 0, |cards|)
    ensures BestHand(cards) == EvaluateFive(Pick(cards, ix))
  {
    if |cards| == 5 {
      PositionSelectionsIncrease(0, 5, 5);
      CombinationsOfAll(Range(0, 5));
      ix := Range(0, 5);
      assert ix in Combinations(Range(0, 5), 5);
      assert Pick(cards, ix) == cards;
    } else {
      HandSelections(cards);
      var es := Evaluations(Combinations(cards, 5));
      ix := SelectionAt(cards, BestIndex(es));
    }
  }
}
