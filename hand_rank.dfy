/**
 * Hand categories and the evaluation record the evaluator produces, with the
 * comparison that decides which of two hands wins.
 */
module HandRanks {
  import opened Cards
  import opened Sorting

  /** The ten categories, from weakest to strongest. */
  datatype HandRank = HighCard | Pair | TwoPair | ThreeOfAKind | Straight | Flush
                    | FullHouse | FourOfAKind | StraightFlush | RoyalFlush

  function HandRankValue(h: HandRank): (v: nat)
    ensures v <= 9
  {
    match h
    case HighCard => 0
    case Pair => 1
    case TwoPair => 2
    case ThreeOfAKind => 3
    case Straight => 4
    case Flush => 5
    case FullHouse => 6
    case FourOfAKind => 7
    case StraightFlush => 8
    case RoyalFlush => 9
  }

  predicate HandRankLess(a: HandRank, b: HandRank)
  {
    HandRankValue(a) < HandRankValue(b)
  }

  /** `HandRank.allCases`, in declaration order. */
  const AllHandRanks: seq<HandRank> :=
    [HighCard, Pair, TwoPair, ThreeOfAKind, Straight, Flush, FullHouse, FourOfAKind,
     StraightFlush, RoyalFlush]

  /**
   * The score of one five-card hand. `kickers` break ties, highest first;
   * `cards` are the five cards the score was computed from.
   */
  datatype HandEvaluation = HandEvaluation(
    rank: HandRank,
    primaryValue: int,
    secondaryValue: int,
    kickers: seq<int>,
    cards: seq<Card>)

  /** `HandEvaluation.init`: the kickers are stored sorted from highest to lowest. */
  function MakeEvaluation(rank: HandRank, primaryValue: int, secondaryValue: int,
                          kickers: seq<int>, cards: seq<Card>): (e: HandEvaluation)
    ensures e.rank == rank && e.primaryValue == primaryValue
    ensures e.secondaryValue == secondaryValue && e.cards == cards
    ensures SortedDescBy(e.kickers, IntKey) && multiset(e.kickers) == multiset(kickers)
    ensures |e.kickers| == |kickers|
  {
    HandEvaluation(rank, primaryValue, secondaryValue, SortDesc(kickers), cards)
  }

  /** How many kickers an evaluation of each category carries. */
  function KickerCount(rank: HandRank): nat
  {
    match rank
    case RoyalFlush | StraightFlush | Straight | FullHouse => 0
    case FourOfAKind | TwoPair => 1
    case ThreeOfAKind => 2
    case Pair => 3
    case Flush | HighCard => 4
  }

  /** The evaluation carries as many kickers as its category calls for. */
  predicate KickersFit(e: HandEvaluation)
  {
    |e.kickers| == KickerCount(e.rank)
  }

  /** Royal flushes, straight flushes, full houses and straights carry no kickers. */
  lemma FitsWithoutKickers(rank: HandRank, primaryValue: int, secondaryValue: int, cards: seq<Card>)
    requires rank == RoyalFlush || rank == StraightFlush || rank == FullHouse || rank == Straight
    ensures KickersFit(MakeEvaluation(rank, primaryValue, secondaryValue, [], cards))
  {
  }

  /** Four of a kind and two pair carry one kicker. */
  lemma FitsWithOneKicker(rank: HandRank, primaryValue: int, secondaryValue: int, kicker: int, cards: seq<Card>)
    requires rank == FourOfAKind || rank == TwoPair
    ensures KickersFit(MakeEvaluation(rank, primaryValue, secondaryValue, [kicker], cards))
  {
  }

  /** Flushes and high cards carry four kickers. */
  lemma FitsWithFourKickers(rank: HandRank, primaryValue: int, kickers: seq<int>, cards: seq<Card>)
    requires (rank == Flush || rank == HighCard) && |kickers| == 4
    ensures KickersFit(MakeEvaluation(rank, primaryValue, 0, kickers, cards))
  {
  }

  /** The kicker scan of `<`: the first differing position decides; none decides false. */
  predicate KickersLess(a: seq<int>, b: seq<int>)
  {
    if a == [] || b == [] then false
    else if a[0] != b[0] then a[0] < b[0]
    else KickersLess(a[1..], b[1..])
  }

  /** `HandEvaluation <`: category, then primary value, then secondary value, then kickers. */
  predicate Less(a: HandEvaluation, b: HandEvaluation)
  {
    if a.rank != b.rank then HandRankLess(a.rank, b.rank)
    else if a.primaryValue != b.primaryValue then a.primaryValue < b.primaryValue
    else if a.secondaryValue != b.secondaryValue then a.secondaryValue < b.secondaryValue
    else KickersLess(a.kickers, b.kickers)
  }

  /** `HandEvaluation ==`: every scoring field equal; the cards are ignored. */
  predicate SameStrength(a: HandEvaluation, b: HandEvaluation)
  {
    a.rank == b.rank && a.primaryValue == b.primaryValue
    && a.secondaryValue == b.secondaryValue && a.kickers == b.kickers
  }

  lemma HandRankOrder()
    ensures forall i, j :: 0 <= i < j < |AllHandRanks| ==>
      HandRankLess(AllHandRanks[i], AllHandRanks[j])
    ensures forall h: HandRank :: h == HighCard || HandRankLess(HighCard, h)
    ensures forall h: HandRank :: h == RoyalFlush || HandRankLess(h, RoyalFlush)
  {
    assert forall i :: 0 <= i < |AllHandRanks| ==> HandRankValue(AllHandRanks[i]) == i;
  }

  lemma HandRankValueInjective(a: HandRank, b: HandRank)
    ensures HandRankValue(a) == HandRankValue(b) <==> a == b
  {
  }

  /** Kickers that are already in order are stored unchanged. */
  lemma MakeEvaluationKeepsSortedKickers(rank: HandRank, p: int, s: int, k: seq<int>, cards: seq<Card>)
    requires SortedDescBy(k, IntKey)
    ensures MakeEvaluation(rank, p, s, k, cards).kickers == k
  {
    var e := MakeEvaluation(rank, p, s, k, cards);
    SortedDescUnique(e.kickers, k);
  }

  lemma {:induction false} KickersLessIrreflexive(a: seq<int>)
    ensures !KickersLess(a, a)
  {
    if a != [] {
      KickersLessIrreflexive(a[1..]);
    }
  }

  lemma {:induction false} KickersLessAsymmetric(a: seq<int>, b: seq<int>)
    requires KickersLess(a, b)
    ensures !KickersLess(b, a)
  {
    if a[0] == b[0] {
      KickersLessAsymmetric(a[1..], b[1..]);
    }
  }

  lemma {:induction false} KickersLessTransitive(a: seq<int>, b: seq<int>, c: seq<int>)
    requires KickersLess(a, b) && KickersLess(b, c)
    ensures KickersLess(a, c)
  {
    if a[0] == b[0] && b[0] == c[0] {
      KickersLessTransitive(a[1..], b[1..], c[1..]);
    }
  }

  /** Over lists of one length, two kicker lists are equal or one scans lower. */
  lemma {:induction false} KickersTrichotomy(a: seq<int>, b: seq<int>)
    requires |a| == |b|
    ensures KickersLess(a, b) || a == b || KickersLess(b, a)
  {
    if a != [] && a[0] == b[0] {
      KickersTrichotomy(a[1..], b[1..]);
      if a[1..] == b[1..] {
        assert a == [a[0]] + a[1..] && b == [b[0]] + b[1..];
      }
    }
  }

  /** `<` is irreflexive and asymmetric, for every pair of evaluations. */
  lemma LessIsStrict(a: HandEvaluation, b: HandEvaluation)
    ensures !Less(a, a)
    ensures Less(a, b) ==> !Less(b, a)
  {
    KickersLessIrreflexive(a.kickers);
    if Less(a, b) && a.rank == b.rank && a.primaryValue == b.primaryValue
       && a.secondaryValue == b.secondaryValue {
      KickersLessAsymmetric(a.kickers, b.kickers);
    }
  }

  /** `<` is transitive, whatever the kicker lengths. */
  lemma LessTransitive(a: HandEvaluation, b: HandEvaluation, c: HandEvaluation)
    requires Less(a, b) && Less(b, c)
    ensures Less(a, c)
  {
    if a.rank == b.rank == c.rank && a.primaryValue == b.primaryValue == c.primaryValue
       && a.secondaryValue == b.secondaryValue == c.secondaryValue {
      KickersLessTransitive(a.kickers, b.kickers, c.kickers);
    }
  }

  /** Hands of the same strength are never ordered either way. */
  lemma SameStrengthIsUnordered(a: HandEvaluation, b: HandEvaluation)
    requires SameStrength(a, b)
    ensures !Less(a, b) && !Less(b, a)
  {
    KickersLessIrreflexive(a.kickers);
  }

  /**
   * With kicker lists of one length (every pair of evaluations of one
   * category that the evaluator produces), exactly one of a < b, a == b,
   * b < a holds.
   */
  lemma Trichotomy(a: HandEvaluation, b: HandEvaluation)
    requires |a.kickers| == |b.kickers|
    ensures Less(a, b) || SameStrength(a, b) || Less(b, a)
    ensures !(Less(a, b) && SameStrength(a, b))
    ensures !(Less(b, a) && SameStrength(a, b))
    ensures !(Less(a, b) && Less(b, a))
  {
    HandRankValueInjective(a.rank, b.rank);
    KickersTrichotomy(a.kickers, b.kickers);
    LessIsStrict(a, b);
    if SameStrength(a, b) {
      SameStrengthIsUnordered(a, b);
    }
  }

  /** The kicker scan never decides between a list and a longer list it is a prefix of. */
  lemma {:induction false} PrefixKickersNeither(a: seq<int>, b: seq<int>)
    requires |a| < |b| && a == b[..|a|]
    ensures !KickersLess(a, b) && !KickersLess(b, a)
  {
    if a != [] {
      assert a[0] == b[0];
      assert a[1..] == b[1..][..|a| - 1];
      PrefixKickersNeither(a[1..], b[1..]);
    }
  }

  /**
   * Two evaluations that agree on category, primary and secondary value, and
   * whose kicker lists have different lengths but agree on the shorter one:
   * neither hand is lower and yet the two are not `==`.
   */
  lemma PrefixKickersIncomparable(a: HandEvaluation, b: HandEvaluation)
    requires a.rank == b.rank && a.primaryValue == b.primaryValue && a.secondaryValue == b.secondaryValue
    requires |a.kickers| < |b.kickers| && a.kickers == b.kickers[..|a.kickers|]
    ensures !Less(a, b) && !Less(b, a) && !SameStrength(a, b)
  {
    PrefixKickersNeither(a.kickers, b.kickers);
  }
}
