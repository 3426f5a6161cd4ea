/**
 * Suits, ranks and cards: the value types every other part of the engine
 * works on. A card is an immutable (suit, rank) pair.
 */
module Cards {

  datatype Suit = Spades | Hearts | Diamonds | Clubs

  datatype CardColor = Red | Black

  /** The suit's raw value, used only to break ties in the card order. */
  function SuitValue(s: Suit): (v: nat)
    ensures v < 4
  {
    match s
    case Spades => 0
    case Hearts => 1
    case Diamonds => 2
    case Clubs => 3
  }

  function SuitSymbol(s: Suit): char
  {
    match s
    case Spades => '\U{2660}'
    case Hearts => '\U{2665}'
    case Diamonds => '\U{2666}'
    case Clubs => '\U{2663}'
  }

  function SuitColor(s: Suit): CardColor
  {
    match s
    case Spades | Clubs => Black
    case Hearts | Diamonds => Red
  }

  predicate SuitLess(a: Suit, b: Suit)
  {
    SuitValue(a) < SuitValue(b)
  }

  datatype Rank = Two | Three | Four | Five | Six | Seven | Eight | Nine | Ten
                | Jack | Queen | King | Ace

  /** The rank's raw value; the ace is high (14) by default. */
  function RankValue(r: Rank): (v: int)
    ensures 2 <= v <= 14
  {
    match r
    case Two => 2
    case Three => 3
    case Four => 4
    case Five => 5
    case Six => 6
    case Seven => 7
    case Eight => 8
    case Nine => 9
    case Ten => 10
    case Jack => 11
    case Queen => 12
    case King => 13
    case Ace => 14
  }

  function RankSymbol(r: Rank): string
  {
    match r
    case Two => "2"
    case Three => "3"
    case Four => "4"
    case Five => "5"
    case Six => "6"
    case Seven => "7"
    case Eight => "8"
    case Nine => "9"
    case Ten => "10"
    case Jack => "J"
    case Queen => "Q"
    case King => "K"
    case Ace => "A"
  }

  /** The value used when the ace plays low, as in the wheel A-2-3-4-5. */
  function LowAceValue(r: Rank): (v: int)
    ensures 1 <= v <= 13
    ensures v == 1 <==> r == Ace
    ensures r != Ace ==> v == RankValue(r)
  {
    if r == Ace then 1 else RankValue(r)
  }

  predicate RankLess(a: Rank, b: Rank)
  {
    RankValue(a) < RankValue(b)
  }

  /** `Suit.allCases` and `Rank.allCases`, in declaration order. */
  const AllSuits: seq<Suit> := [Spades, Hearts, Diamonds, Clubs]
  const AllRanks: seq<Rank> := [Two, Three, Four, Five, Six, Seven, Eight, Nine, Ten,
                                Jack, Queen, King, Ace]

  datatype Card = Card(suit: Suit, rank: Rank)

  /** The card's identity and description: rank symbol, then suit symbol. */
  function Id(c: Card): (id: string)
    ensures 2 <= |id| <= 3 && id[|id| - 1] == SuitSymbol(c.suit)
  {
    RankSymbol(c.rank) + [SuitSymbol(c.suit)]
  }

  function Description(c: Card): string
  {
    Id(c)
  }

  /** `rank * 4 + suit`: unique per card, but spread over 8..59, not 0..51. */
  function NumericValue(c: Card): (n: int)
    ensures 8 <= n <= 59
    ensures n % 4 == SuitValue(c.suit) && n / 4 == RankValue(c.rank)
  {
    RankValue(c.rank) * 4 + SuitValue(c.suit)
  }

  /** `Card <`: rank first, then suit. */
  predicate CardLess(a: Card, b: Card)
  {
    if a.rank != b.rank then RankLess(a.rank, b.rank) else SuitLess(a.suit, b.suit)
  }

  /** `Card ==`: rank and suit both equal. */
  predicate CardEquals(a: Card, b: Card)
  {
    a.rank == b.rank && a.suit == b.suit
  }

  /** What `hash(into:)` feeds the hasher: the suit, then the rank. */
  function HashInput(c: Card): (int, int)
  {
    (SuitValue(c.suit), RankValue(c.rank))
  }

  lemma SuitColors(s: Suit)
    ensures SuitColor(s) == Black <==> s == Spades || s == Clubs
    ensures SuitColor(s) == Red <==> s == Hearts || s == Diamonds
  {
  }

  lemma AllCasesListed()
    ensures |AllSuits| == 4 && |AllRanks| == 13
    ensures forall s: Suit :: s in AllSuits
    ensures forall r: Rank :: r in AllRanks
    ensures forall i :: 0 <= i < 4 ==> SuitValue(AllSuits[i]) == i
    ensures forall i :: 0 <= i < 13 ==> RankValue(AllRanks[i]) == i + 2
  {
    forall s: Suit ensures s in AllSuits {
      assert AllSuits[SuitValue(s)] == s;
    }
    forall r: Rank ensures r in AllRanks {
      assert AllRanks[RankValue(r) - 2] == r;
    }
  }

  lemma RankValueInjective(a: Rank, b: Rank)
    ensures RankValue(a) == RankValue(b) <==> a == b
  {
  }

  lemma SuitValueInjective(a: Suit, b: Suit)
    ensures SuitValue(a) == SuitValue(b) <==> a == b
  {
  }

  /** Distinct suits print distinct symbols. */
  lemma SuitSymbolInjective(a: Suit, b: Suit)
    ensures SuitSymbol(a) == SuitSymbol(b) <==> a == b
  {
  }

  /** Rank symbols are one character except "10", and distinct ranks print distinct symbols. */
  lemma RankSymbolShape(a: Rank, b: Rank)
    ensures |RankSymbol(a)| == if a == Ten then 2 else 1
    ensures RankSymbol(a) == RankSymbol(b) <==> a == b
  {
  }

  /** Suit `<` compares raw values: a strict order, total on distinct suits. */
  lemma SuitOrderIsStrictTotal(a: Suit, b: Suit)
    ensures !SuitLess(a, a)
    ensures SuitLess(a, b) ==> !SuitLess(b, a)
    ensures a != b ==> SuitLess(a, b) || SuitLess(b, a)
  {
    SuitValueInjective(a, b);
  }

  /** Rank `<` compares raw values: a strict total order with the two lowest and the ace highest. */
  lemma RankOrderIsStrictTotal(a: Rank, b: Rank)
    ensures !RankLess(a, a)
    ensures RankLess(a, b) ==> !RankLess(b, a)
    ensures a != b ==> RankLess(a, b) || RankLess(b, a)
    ensures a != Two ==> RankLess(Two, a)
    ensures a != Ace ==> RankLess(a, Ace)
  {
    RankValueInjective(a, b);
  }

  /** `<` orders cards as their numeric values do. */
  lemma CardLessByNumericValue(a: Card, b: Card)
    ensures CardLess(a, b) <==> NumericValue(a) < NumericValue(b)
  {
    RankValueInjective(a.rank, b.rank);
  }

  /**
   * `==` holds exactly when the numeric values agree, and the hashed pair is
   * a suit value and a rank value that give back the numeric value.
   */
  lemma EqualityByNumericValue(a: Card, b: Card)
    ensures CardEquals(a, b) <==> NumericValue(a) == NumericValue(b)
    ensures 0 <= HashInput(a).0 < 4 && 2 <= HashInput(a).1 <= 14
    ensures HashInput(a).1 * 4 + HashInput(a).0 == NumericValue(a)
  {
    RankValueInjective(a.rank, b.rank);
    SuitValueInjective(a.suit, b.suit);
  }

  /** `<` is a strict total order on the 52 cards. */
  lemma CardOrderIsStrictTotal(a: Card, b: Card, c: Card)
    ensures !CardLess(a, a)
    ensures CardLess(a, b) ==> !CardLess(b, a)
    ensures CardLess(a, b) && CardLess(b, c) ==> CardLess(a, c)
    ensures a != b ==> CardLess(a, b) || CardLess(b, a)
  {
    RankValueInjective(a.rank, b.rank);
    SuitValueInjective(a.suit, b.suit);
  }

  /** `==` is structural equality, and equal cards feed the hasher equal input. */
  lemma EqualityIsStructural(a: Card, b: Card)
    ensures CardEquals(a, b) <==> a == b
    ensures a == b <==> HashInput(a) == HashInput(b)
  {
    RankValueInjective(a.rank, b.rank);
    SuitValueInjective(a.suit, b.suit);
  }

  lemma NumericValueInjective(a: Card, b: Card)
    ensures NumericValue(a) == NumericValue(b) ==> a == b
  {
    RankValueInjective(a.rank, b.rank);
    SuitValueInjective(a.suit, b.suit);
  }

  /** The numeric value is not a dense 0..51 packing: two of spades is 8. */
  lemma NumericValueNotDense()
    ensures NumericValue(Card(Spades, Two)) == 8
    ensures NumericValue(Card(Clubs, Ace)) == 59
  {
  }

  /** Distinct cards have distinct identities. */
  lemma {:induction false} IdInjective(a: Card, b: Card)
    requires Id(a) == Id(b)
    ensures a == b
  {
    var ia, ib := Id(a), Id(b);
    assert SuitSymbol(a.suit) == SuitSymbol(b.suit);
    assert a.suit == b.suit;
    assert RankSymbol(a.rank) == ia[..|ia| - 1] == ib[..|ib| - 1] == RankSymbol(b.rank);
  }
}
