/**
 * The 52-card deck with its mutable set of used cards. Each simulation
 * iteration works on its own copy of a deck whose known cards are marked used.
 */
module Decks {
  import opened Wrappers
  import opened Cards
  import opened Sequences

  /** The 52 cards in the order `init` appends them: suit by suit, each suit two to ace. */
  function FullDeck(): (d: seq<Card>)
    ensures |d| == 52
  {
    seq(52, i requires 0 <= i < 52 => Card(AllSuits[i / 13], AllRanks[i % 13]))
  }

  /** `cards.filter { !usedCards.contains($0) }`. */
  function Available(cards: seq<Card>, used: set<Card>): (r: seq<Card>)
    ensures |r| <= |cards|
  {
    if cards == [] then []
    else (if cards[0] in used then [] else [cards[0]]) + Available(cards[1..], used)
  }

  /** Exactly one card per (suit, rank), none repeated. */
  lemma FullDeckHasEveryCardOnce()
    ensures forall c: Card :: c in FullDeck()
    ensures PairwiseDistinct(FullDeck())
  {
    AllCasesListed();
    var d := FullDeck();
    forall c: Card ensures c in d {
      var i := SuitValue(c.suit) * 13 + RankValue(c.rank) - 2;
      assert i / 13 == SuitValue(c.suit) && i % 13 == RankValue(c.rank) - 2;
      SuitValueInjective(AllSuits[i / 13], c.suit);
      RankValueInjective(AllRanks[i % 13], c.rank);
      assert d[i] == c;
    }
    forall i, j | 0 <= i < j < 52 ensures d[i] != d[j] {
    }
  }

  /** The available cards are those of the list that are not used, each where it was. */
  lemma {:induction false} AvailableMembers(cards: seq<Card>, used: set<Card>)
    ensures forall c :: c in Available(cards, used) <==> c in cards && c !in used
  {
    if cards != [] {
      AvailableMembers(cards[1..], used);
      assert cards == [cards[0]] + cards[1..];
    }
  }

  /** The rest of a list without repeats has none, and lacks the first element. */
  lemma DistinctTail(cards: seq<Card>)
    requires cards != [] && PairwiseDistinct(cards)
    ensures PairwiseDistinct(cards[1..]) && cards[0] !in cards[1..]
  {
    var rest := cards[1..];
    forall i, j | 0 <= i < j < |rest| ensures rest[i] != rest[j] {
      assert rest[i] == cards[i + 1] && rest[j] == cards[j + 1];
    }
    forall k | 0 <= k < |rest| ensures rest[k] != cards[0] {
      assert rest[k] == cards[k + 1];
    }
  }

  /** Filtering a list without repeats keeps it without repeats. */
  lemma {:induction false} AvailableDistinct(cards: seq<Card>, used: set<Card>)
    requires PairwiseDistinct(cards)
    ensures PairwiseDistinct(Available(cards, used))
  {
    if cards != [] {
      DistinctTail(cards);
      AvailableDistinct(cards[1..], used);
      AvailableMembers(cards[1..], used);
    }
  }

  /** Over a list without repeats, each used card of the list removes exactly one. */
  lemma {:induction false} AvailableCountOf(cards: seq<Card>, used: set<Card>)
    requires PairwiseDistinct(cards)
    ensures |Available(cards, used)| == |cards| - |used * ToSet(cards)|
  {
    if cards != [] {
      var rest := cards[1..];
      assert |Available(rest, used)| == |rest| - |used * ToSet(rest)| by {
        DistinctTail(cards);
        AvailableCountOf(rest, used);
      }
      assert cards[0] !in ToSet(rest) by {
        DistinctTail(cards);
      }
      ToSetCons(cards);
      if cards[0] in used {
        assert used * ToSet(cards) == (used * ToSet(rest)) + {cards[0]};
      } else {
        assert used * ToSet(cards) == used * ToSet(rest);
      }
    }
  }

  /** A full deck with `used` marked has 52 - |used| cards left. */
  lemma AvailableCount(used: set<Card>)
    ensures |Available(FullDeck(), used)| == 52 - |used|
  {
    FullDeckHasEveryCardOnce();
    AvailableCountOf(FullDeck(), used);
    assert used * ToSet(FullDeck()) == used;
  }

  /** The card the initializer appends for suit index `si` and rank index `ri`. */
  lemma FullDeckPrefix(si: nat, ri: nat)
    requires si < 4 && ri < 13
    ensures FullDeck()[..13 * si + ri + 1] == FullDeck()[..13 * si + ri] + [Card(AllSuits[si], AllRanks[ri])]
  {
    var i := 13 * si + ri;
    assert i / 13 == si && i % 13 == ri;
  }

  /**
   * A deck. `cards` is the fixed list built by the initializer; `used` holds
   * the cards that may not be drawn.
   */
  class Deck {
    var cards: seq<Card>
    var used: set<Card>

    ghost predicate Valid()
      reads this
    {
      cards == FullDeck()
    }

    /** `init`: one card per (suit, rank), appended suit by suit; nothing used. */
    constructor ()
      ensures Valid() && used == {}
    {
      var all: seq<Card> := [];
      for si := 0 to |AllSuits|
        invariant all == FullDeck()[..13 * si]
      {
        for ri := 0 to |AllRanks|
          invariant all == FullDeck()[..13 * si + ri]
        {
          FullDeckPrefix(si, ri);
          all := all + [Card(AllSuits[si], AllRanks[ri])];
        }
      }
      cards := all;
      used := {};
    }

    function AllCards(): seq<Card>
      reads this
    {
      cards
    }

    function AvailableCards(): seq<Card>
      reads this
    {
      Available(cards, used)
    }

    /** `isAvailable`: not yet used, so exactly when among the available cards. */
    predicate IsAvailable(c: Card)
      reads this
    {
      c !in used
    }

    /** On a full deck, a card is available exactly when it is among the available cards. */
    lemma IsAvailableIff(c: Card)
      requires Valid()
      ensures IsAvailable(c) <==> c in AvailableCards()
    {
      FullDeckHasEveryCardOnce();
      AvailableMembers(cards, used);
    }

    /** `allCards` of a full deck: 52 cards, every card exactly once. */
    lemma AllCardsFull()
      requires Valid()
      ensures |AllCards()| == 52 && PairwiseDistinct(AllCards())
      ensures forall c: Card :: c in AllCards()
    {
      FullDeckHasEveryCardOnce();
    }

    /** `availableCards` of a full deck: exactly the unused cards, each once. */
    lemma AvailableCardsExactlyUnused()
      requires Valid()
      ensures forall c: Card :: c in AvailableCards() <==> c !in used
      ensures PairwiseDistinct(AvailableCards())
    {
      FullDeckHasEveryCardOnce();
      AvailableMembers(cards, used);
      AvailableDistinct(cards, used);
    }

    /** `remainingCount`: a full deck less the used cards. */
    function RemainingCount(): (n: nat)
      reads this
      ensures Valid() ==> n == 52 - |used|
    {
      AvailableCount(used);
      |AvailableCards()|
    }

    /** `totalCount`: always the full 52. */
    function TotalCount(): (n: nat)
      reads this
      ensures Valid() ==> n == 52
    {
      |cards|
    }

    method MarkAsUsed(c: Card)
      modifies this`used
      ensures used == old(used) + {c}
    {
      used := used + {c};
    }

    /** Bulk `markAsUsed`: one insertion per listed card. */
    method MarkAllAsUsed(cs: seq<Card>)
      modifies this`used
      ensures used == old(used) + ToSet(cs)
    {
      for i := 0 to |cs|
        invariant used == old(used) + ToSet(cs[..i])
      {
        assert ToSet(cs[..i + 1]) == ToSet(cs[..i]) + {cs[i]} by {
          assert cs[..i + 1] == cs[..i] + [cs[i]];
        }
        MarkAsUsed(cs[i]);
      }
      assert cs[..|cs|] == cs;
    }

    method MarkAsAvailable(c: Card)
      modifies this`used
      ensures used == old(used) - {c}
    {
      used := used - {c};
    }

    /** Bulk `markAsAvailable`: one removal per listed card. */
    method MarkAllAsAvailable(cs: seq<Card>)
      modifies this`used
      ensures used == old(used) - ToSet(cs)
    {
      for i := 0 to |cs|
        invariant used == old(used) - ToSet(cs[..i])
      {
        assert ToSet(cs[..i + 1]) == ToSet(cs[..i]) + {cs[i]} by {
          assert cs[..i + 1] == cs[..i] + [cs[i]];
        }
        MarkAsAvailable(cs[i]);
      }
      assert cs[..|cs|] == cs;
    }

    method Reset()
      modifies this`used
      ensures used == {}
    {
      used := {};
    }

    /**
     * Draws one available card, chosen nondeterministically in place of
     * `randomElement()`, and marks it used; none when nothing is left.
     */
    method DrawRandomCard() returns (card: Option<Card>)
      requires Valid()
      modifies this`used
      ensures card.None? <==> old(RemainingCount()) == 0
      ensures card.None? ==> used == old(used)
      ensures card.Some? ==> card.value in old(AvailableCards()) && card.value !in old(used)
      ensures card.Some? ==> used == old(used) + {card.value}
      ensures card.Some? ==> RemainingCount() == old(RemainingCount()) - 1
    {
      var available := AvailableCards();
      if available == [] {
        return None;
      }
      assert available[0] in available;
      var c :| c in available;
      AvailableMembers(cards, used);
      AvailableCount(used);
      MarkAsUsed(c);
      AvailableCount(used);
      return Some(c);
    }

    /**
     * Draws up to `count` cards one at a time, stopping early when the deck
     * runs out.
     */
    method DrawRandomCards(count: nat) returns (drawn: seq<Card>)
      requires Valid()
      modifies this`used
      ensures |drawn| == if count <= old(RemainingCount()) then count else old(RemainingCount())
      ensures PairwiseDistinct(drawn)
      ensures forall c :: c in drawn ==> c !in old(used)
      ensures used == old(used) + ToSet(drawn)
      ensures RemainingCount() == old(RemainingCount()) - |drawn|
    {
      drawn := [];
      AvailableCount(used);
      for i := 0 to count
        invariant |drawn| == i
        invariant PairwiseDistinct(drawn)
        invariant forall c :: c in drawn ==> c !in old(used)
        invariant used == old(used) + ToSet(drawn)
        invariant |used| == |old(used)| + i
      {
        var card := DrawRandomCard();
        if card.None? {
          assert |drawn| == old(RemainingCount()) < count;
          break;
        }
        assert card.value !in ToSet(drawn);
        AppendNew(drawn, card.value);
        drawn := drawn + [card.value];
      }
      assert RemainingCount() == 52 - |used| >= 0;
    }

    /** A fresh deck with the full card list and this deck's used set. */
    method Copy() returns (d: Deck)
      ensures fresh(d) && d.Valid() && d.used == used
    {
      d := new Deck();
      d.used := used;
    }
  }
}
