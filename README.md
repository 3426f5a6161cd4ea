# Poker odds engine, modelled in Dafny

This project models the core of the `pokerodds` iOS app. Given a player's two hole cards and zero to five board cards, the app estimates the chance of winning against one random opponent. It deals the missing cards at random many times, evaluates both best five-card hands, and counts wins, ties and losses.

The model covers five parts of the app.

- **Cards** (`cards.dfy`, module `Cards`): suits, ranks, the low-ace value, the card order, card equality and the numeric id.
- **Hand ranks** (`hand_rank.dfy`, `HandRanks`): the ten hand categories and the `HandEvaluation` record with its sorted kickers. It also covers the record's `<` and `==`.
- **Deck** (`deck.dfy`, `Decks`): the 52-card deck as a class with a used-card set. Its methods mark, release, reset, draw and copy.
  - A random draw is a nondeterministic choice among the available cards.
- **Hand evaluator** (`hand_evaluator.dfy`, `hand_categories.dfy`, `combinations.dfy`):
  - the nine category checks and the five-card evaluation, which tries them from strongest to weakest;
  - the recursive `generateCombinations`;
  - the best-of-all-five-card-selections scan for six or seven cards.
- **Monte Carlo engine** (`monte_carlo_engine.dfy`, `MonteCarlo`):
  - input checks;
  - batches of 1000 iterations, a cancellation check before each batch, and a progress value after each batch;
  - per-iteration dealing from a copy of the deck, and the win/tie/loss tally;
  - `validateConfiguration` and `estimatedDuration`.
- **View model** (`odds_view_model.dfy`, `OddsViewModels`): the card-slot logic of `OddsViewModel`. This means the two hole-card slots and five board slots, duplicate-rejecting selection, removal and clearing, iteration clamping, fast mode, the run guard, the ordered configuration checks, and the simulation state.

Supporting modules are `Wrappers` (Swift's optional as `Option`), `Sequences` (`Set(xs).count == xs.count`, `compactMap`) and `Sorting` (`sorted(by: >)` and `sorted()` on integers).

## How the engine is modelled

- **Randomness.** `randomElement()` is a nondeterministic choice. Every property holds for every possible sequence of draws.
- **Recorded deals.** Each run records a ghost list of *deals*. A deal is the opponent's two cards, the cards that complete the board, and the two evaluations.
  - Every deal is *valid*: its drawn cards are distinct, none of them is a known card, and each evaluation is `evaluateHand` of that side's cards plus the full board.
  - The returned counters are exactly the tally of the deals' outcomes.
- **Cancellation.** The cancellation token is read once per batch. A cancelled token stays cancelled, so a run is described by `cancelAt`: the first batch whose check finds the token cancelled, if any.
- **Progress.** The progress callback is modelled as the list of values it receives.

## Where the code and its own comments differ

The model follows the code in each case.

- The iteration bounds are hard-coded, and they differ between places.
  - The doc comment of `simulate` (pokerodds/Simulation/MonteCarloEngine.swift:63) promises 5000 to 100000 iterations.
  - The guard of `simulate` (line 85) accepts 5000 to `AdConfiguration.maxPremiumIterations`, which is 200000.
  - The engine's `validateConfiguration` (line 243) accepts at most 100000.
  - `MonteCarlo.SimulateAcceptsMoreThanValidated` exhibits an input that `simulate` runs but `validateConfiguration` rejects.
- `simulateBatch` skips an iteration when the opponent's draw comes back short. The model proves that this never happens: the deck always has at least 7 cards left, so every iteration is counted. `totalSimulations` therefore always equals the requested iteration count on a completed run.
- In the view model, `performSimulation` has an error branch ("Simulation failed") for an empty result from an uncancelled run. The model proves that branch is unreachable when runs are sequential.
  - A run only starts when `canRunSimulation` holds.
  - `iterationsCount` always stays within 5000 to 200000.
  - So `simulate`'s input checks always pass, and an empty result always means cancellation.

## Model

| member | source | states |
|---|---|---|
| Cards.SuitValue | pokerodds/Models/Card.swift:11-15 | suit raw values are below 4 |
| Cards.SuitValueInjective | pokerodds/Models/Card.swift:11-15 | distinct suits have distinct raw values |
| Cards.SuitColors | pokerodds/Models/Card.swift:26-31 | spades and clubs are black; hearts and diamonds are red |
| Cards.SuitSymbol | pokerodds/Models/Card.swift:17-24 | no contract of its own: its partners `SuitSymbolInjective` and `Id` state that distinct suits print distinct symbols and that the symbol ends every card id |
| Cards.SuitSymbolInjective | pokerodds/Models/Card.swift:17-24 | two suits print the same symbol exactly when they are the same suit |
| Cards.SuitColor | pokerodds/Models/Card.swift:26-31 | no contract of its own: its partner `SuitColors` states that spades and clubs are black and hearts and diamonds red |
| Cards.SuitLess | pokerodds/Models/Card.swift:33-35 | no contract of its own: its partner `SuitOrderIsStrictTotal` states that it is a strict order, total on distinct suits |
| Cards.SuitOrderIsStrictTotal | pokerodds/Models/Card.swift:33-35 | suit `<` is irreflexive and asymmetric, and orders any two distinct suits |
| Cards.RankValue | pokerodds/Models/Card.swift:45-58 | rank raw values lie in 2..14 |
| Cards.RankValueInjective | pokerodds/Models/Card.swift:45-58 | distinct ranks have distinct raw values |
| Cards.RankSymbol | pokerodds/Models/Card.swift:60-76 | no contract of its own: its partners `RankSymbolShape` and `IdInjective` state that it is one character except "10" and tells the ranks apart |
| Cards.RankSymbolShape | pokerodds/Models/Card.swift:60-76 | every rank symbol is one character except the ten's two, and two ranks print the same symbol exactly when they are the same rank |
| Cards.RankLess | pokerodds/Models/Card.swift:83-85 | no contract of its own: its partner `RankOrderIsStrictTotal` states that it is a strict total order from the two up to the ace |
| Cards.RankOrderIsStrictTotal | pokerodds/Models/Card.swift:45-85 | rank `<` is irreflexive and asymmetric and orders any two distinct ranks; the two is below and the ace above every other rank |
| Cards.AllCasesListed | pokerodds/Models/Card.swift:11-58 | `allCases` lists every suit and rank once, in raw-value order |
| Cards.LowAceValue | pokerodds/Models/Card.swift:78-81 | the low-ace value is 1 exactly for the ace and the raw value for every other rank |
| Cards.Id | pokerodds/Models/Card.swift:93-100 | the id (which is also the description) has two or three characters and ends with the suit symbol |
| Cards.Description | pokerodds/Models/Card.swift:98-100 | no contract of its own: it is the id, whose contract and `IdInjective` state its shape and that it tells cards apart |
| Cards.IdInjective | pokerodds/Models/Card.swift:93-95 | cards with the same id are the same card |
| Cards.NumericValue | pokerodds/Models/Card.swift:102-105 | the numeric value lies in 8..59, and its quotient and remainder by 4 are the rank and the suit |
| Cards.NumericValueInjective | pokerodds/Models/Card.swift:102-105 | distinct cards have distinct numeric values |
| Cards.NumericValueNotDense | pokerodds/Models/Card.swift:102-105 | the numeric values run from 8 (two of spades) to 59 (ace of clubs), so they do not pack into 0..51 |
| Cards.CardLess | pokerodds/Models/Card.swift:113-118 | no contract of its own: its partners `CardLessByNumericValue` and `CardOrderIsStrictTotal` state that it orders cards as their numeric values do, strictly and totally |
| Cards.CardEquals | pokerodds/Models/Card.swift:121-123 | no contract of its own: its partners `EqualityIsStructural` and `EqualityByNumericValue` state that it holds exactly for the same card, exactly when the numeric values agree |
| Cards.HashInput | pokerodds/Models/Card.swift:125-128 | no contract of its own: its partners `EqualityIsStructural` and `EqualityByNumericValue` state that equal hashed pairs mean the same card and that the pair gives back the numeric value |
| Cards.CardLessByNumericValue | pokerodds/Models/Card.swift:113-118 | `<` (rank first, then suit) holds exactly when the first card has the smaller numeric value |
| Cards.EqualityByNumericValue | pokerodds/Models/Card.swift:121-128 | `==` holds exactly when the numeric values agree; the hashed pair is a suit value below 4 and a rank value in 2..14 that together give back the numeric value |
| Cards.CardOrderIsStrictTotal | pokerodds/Models/Card.swift:112-118 | the rank-then-suit `<` is irreflexive, asymmetric and transitive, and any two distinct cards are ordered |
| Cards.EqualityIsStructural | pokerodds/Models/Card.swift:120-128 | `==` holds exactly for equal rank and suit, which is exactly when the hashed (suit, rank) inputs agree |
| HandRanks.HandRankValue | pokerodds/Models/HandRank.swift:11-21 | category raw values lie in 0..9 |
| HandRanks.HandRankOrder | pokerodds/Models/HandRank.swift:11-50 | `allCases` rises strictly from high card to royal flush |
| HandRanks.HandRankValueInjective | pokerodds/Models/HandRank.swift:11-21 | distinct categories have distinct raw values |
| HandRanks.MakeEvaluation | pokerodds/Models/HandRank.swift:61-67 | the initializer keeps the other fields and stores the kickers as a descending permutation of its argument |
| HandRanks.MakeEvaluationKeepsSortedKickers | pokerodds/Models/HandRank.swift:65 | kickers that are already descending are stored unchanged |
| HandRanks.FitsWithoutKickers | pokerodds/Models/HandEvaluator.swift:93-173 | royal flushes, straight flushes, full houses and straights built with an empty kicker list carry their category's kicker count |
| HandRanks.FitsWithOneKicker | pokerodds/Models/HandEvaluator.swift:113-213 | four of a kind and two pair built with one kicker carry their category's kicker count |
| HandRanks.FitsWithFourKickers | pokerodds/Models/HandEvaluator.swift:156-245 | flushes and high cards built with four kickers carry their category's kicker count |
| HandRanks.KickersLessIrreflexive | pokerodds/Models/HandRank.swift:86-94 | no kicker list scans below itself |
| HandRanks.KickersLessAsymmetric | pokerodds/Models/HandRank.swift:86-94 | two kicker lists never scan below each other |
| HandRanks.KickersLessTransitive | pokerodds/Models/HandRank.swift:86-94 | the kicker scan is transitive |
| HandRanks.KickersTrichotomy | pokerodds/Models/HandRank.swift:86-94 | two kicker lists of one length are equal or one scans below the other |
| HandRanks.Less | pokerodds/Models/HandRank.swift:70-95 | no contract of its own: its partners `LessIsStrict`, `LessTransitive` and `Trichotomy` state that `<` is a strict order, total on evaluations whose kicker lists have one length |
| HandRanks.SameStrength | pokerodds/Models/HandRank.swift:97-102 | no contract of its own: its partners `SameStrengthIsUnordered` and `Trichotomy` state that `==` excludes both `<` directions and is the third case of the trichotomy |
| HandRanks.LessIsStrict | pokerodds/Models/HandRank.swift:70-95 | `<` is irreflexive and asymmetric |
| HandRanks.LessTransitive | pokerodds/Models/HandRank.swift:70-95 | `<` is transitive, whatever the kicker lengths |
| HandRanks.SameStrengthIsUnordered | pokerodds/Models/HandRank.swift:70-102 | if `a == b`, neither `a < b` nor `b < a` |
| HandRanks.Trichotomy | pokerodds/Models/HandRank.swift:70-102 | with kicker lists of equal length, exactly one of `a < b`, `a == b`, `b < a` holds |
| HandRanks.PrefixKickersIncomparable | pokerodds/Models/HandRank.swift:86-101 | two evaluations agreeing on category, primary and secondary values, whose kicker lists differ in length with the shorter a prefix of the longer, are neither ordered nor `==` |
| HandRanks.PrefixKickersNeither | pokerodds/Models/HandRank.swift:86-94 | the kicker scan never decides between a list and a longer list it is a prefix of, in either direction |
| Sorting.SortDesc | pokerodds/Models/HandRank.swift:65 | `sorted(by: >)` returns a descending permutation of its input |
| Sorting.SortDescBy | pokerodds/Models/HandEvaluator.swift:48 | the rank sort of `evaluateFiveCards` returns a permutation with ranks never increasing |
| Sorting.InsertDescBy | pokerodds/Models/HandEvaluator.swift:48 | inserting keeps the list descending and adds exactly the inserted element |
| Sorting.SortedDescUnique | pokerodds/Models/HandRank.swift:65 | two descending permutations of the same integers are the same list, so the sorted kickers are determined |
| Sorting.HeadIsLargest | pokerodds/Models/HandEvaluator.swift:159-163 | the head of a descending list is at least every element |
| Sorting.SortAsc | pokerodds/Models/HandEvaluator.swift:255 | `sorted()` returns an ascending permutation of its input |
| Sorting.ReverseAscending | pokerodds/Models/HandEvaluator.swift:255 | a descending list read backwards is ascending |
| Sorting.ReverseMultiset | pokerodds/Models/HandEvaluator.swift:255 | reversing keeps the elements |
| Sequences.NoDuplicatesIff | pokerodds/Simulation/MonteCarloEngine.swift:91-92 | the test `Set(xs).count == xs.count` holds exactly when no two positions hold equal elements |
| Sequences.SetSizeAtMostLength | pokerodds/Simulation/MonteCarloEngine.swift:92 | a list's set is never larger than the list |
| Sequences.DistinctApartFrom | pokerodds/Models/HandEvaluator.swift:175-234 | when only one value may repeat, the set of the other values has as many elements as the list less that value's occurrences |
| Sequences.DistinctIffAtMostOnce | pokerodds/ViewModels/OddsViewModel.swift:140-143 | a list has distinct positions exactly when its multiset holds each element at most once |
| Sequences.AppendNew | pokerodds/Models/Deck.swift:86-92 | appending an element not yet present keeps the list free of repeats and adds it to the set |
| Sequences.CompactMap | pokerodds/ViewModels/OddsViewModel.swift:105-112 | `compactMap` is never longer than its input |
| Sequences.CompactMapMembers | pokerodds/ViewModels/OddsViewModel.swift:105-112 | the compacted list holds exactly the values of the filled slots |
| Sequences.CompactMapUpdate | pokerodds/ViewModels/OddsViewModel.swift:296-332 | overwriting one slot swaps that slot's card for the new value in the compacted multiset |
| Decks.FullDeck | pokerodds/Models/Deck.swift:16-26 | the initializer's list has 52 cards |
| Decks.FullDeckHasEveryCardOnce | pokerodds/Models/Deck.swift:16-26 | the 52 cards are pairwise distinct, and every (suit, rank) appears |
| Decks.FullDeckPrefix | pokerodds/Models/Deck.swift:21-25 | the nested loops append the cards suit by suit, each suit from two to ace |
| Decks.Available | pokerodds/Models/Deck.swift:34-36 | the filtered list is no longer than the deck |
| Decks.AvailableMembers | pokerodds/Models/Deck.swift:34-36 | a card is available exactly when it is in the deck and not used |
| Decks.AvailableDistinct | pokerodds/Models/Deck.swift:34-36 | the available cards have no repeats |
| Decks.AvailableCountOf | pokerodds/Models/Deck.swift:34-36 | each used card of a repeat-free list removes exactly one available card |
| Decks.AvailableCount | pokerodds/Models/Deck.swift:105-107 | a full deck with `used` marked has 52 − \|used\| cards left |
| Decks.Deck.constructor | pokerodds/Models/Deck.swift:16-26 | a new deck has the full 52-card list and no card used |
| Decks.Deck.RemainingCount | pokerodds/Models/Deck.swift:105-107 | the remaining count is 52 minus the number of used cards |
| Decks.Deck.TotalCount | pokerodds/Models/Deck.swift:110-112 | the total count is always 52 |
| Decks.Deck.AllCards | pokerodds/Models/Deck.swift:29-31 | no contract of its own: its partner `AllCardsFull` states that a full deck lists all 52 cards once each |
| Decks.Deck.AllCardsFull | pokerodds/Models/Deck.swift:16-31 | on a full deck `allCards` has 52 pairwise-distinct cards and contains every card |
| Decks.Deck.AvailableCards | pokerodds/Models/Deck.swift:34-36 | no contract of its own: its partners `AvailableCardsExactlyUnused`, `IsAvailableIff` and `RemainingCount` state that it holds exactly the unused cards, once each, 52 minus the used count of them |
| Decks.Deck.AvailableCardsExactlyUnused | pokerodds/Models/Deck.swift:34-36 | on a full deck the available cards are exactly the unused cards, with no repeats |
| Decks.Deck.IsAvailable | pokerodds/Models/Deck.swift:63-65 | no contract of its own: its partner `IsAvailableIff` states that on a full deck a card is available exactly when it is among the available cards |
| Decks.Deck.IsAvailableIff | pokerodds/Models/Deck.swift:63-65 | on a full deck a card is available exactly when it is among the available cards |
| Decks.Deck.MarkAsUsed | pokerodds/Models/Deck.swift:46-48 | adds exactly the given card to the used set, which makes it idempotent |
| Decks.Deck.MarkAllAsUsed | pokerodds/Models/Deck.swift:39-43 | adds exactly the listed cards to the used set |
| Decks.Deck.MarkAsAvailable | pokerodds/Models/Deck.swift:58-60 | removes exactly the given card from the used set |
| Decks.Deck.MarkAllAsAvailable | pokerodds/Models/Deck.swift:51-55 | removes exactly the listed cards from the used set |
| Decks.Deck.Reset | pokerodds/Models/Deck.swift:68-70 | no card is used afterwards |
| Decks.Deck.DrawRandomCard | pokerodds/Models/Deck.swift:73-80 | returns none exactly when no card is available. Otherwise it returns a previously available card, marks only it used, and lowers the remaining count by one |
| Decks.Deck.DrawRandomCards | pokerodds/Models/Deck.swift:83-95 | returns min(count, remaining) pairwise-distinct cards, each previously available and now used, and nothing else becomes used |
| Decks.Deck.Copy | pokerodds/Models/Deck.swift:98-102 | the copy is a new deck with the full list and the same used set, so changing it leaves the original alone |
| Combinatorics.PrependAll | pokerodds/Models/HandEvaluator.swift:308-310 | putting one element in front keeps the number of lists |
| Combinatorics.GenerateCombinations | pokerodds/Models/HandEvaluator.swift:292-314 | the guards and loops of `generateCombinations` return exactly Pascal's-rule selections, in the same order |
| Combinatorics.StartPositionLoop | pokerodds/Models/HandEvaluator.swift:301-313 | the start-position loop appends the selections for each start position in turn |
| Combinatorics.AddStartPosition | pokerodds/Models/HandEvaluator.swift:303-311 | one start position appends its element in front of each selection from the rest |
| Combinatorics.AppendPrefixed | pokerodds/Models/HandEvaluator.swift:308-310 | the inner loop appends `[first] + sub` for each sub-selection, in order |
| Combinatorics.BlocksAreCombinations | pokerodds/Models/HandEvaluator.swift:303-311 | the blocks the loop appends from start position i on are the selections from `a[i..]` |
| Combinatorics.CombinationsOfAll | pokerodds/Models/HandEvaluator.swift:295 | choosing every element gives the one list |
| Combinatorics.CombinationsOfOne | pokerodds/Models/HandEvaluator.swift:297-299 | choosing one element gives the singletons in order |
| Combinatorics.CombinationsCount | pokerodds/Models/HandEvaluator.swift:292-314 | there are C(n, k) selections |
| Combinatorics.CombinationLengths | pokerodds/Models/HandEvaluator.swift:292-314 | every selection has k elements |
| Combinatorics.HandCombinationCounts | pokerodds/Models/HandEvaluator.swift:33 | seven cards give 21 five-card hands, six give 6 and five give 1 |
| Combinatorics.CombinationsArePicks | pokerodds/Models/HandEvaluator.swift:292-314 | each selection is the elements at a list of positions, so it is an order-preserving subsequence |
| Combinatorics.PositionSelectionsIncrease | pokerodds/Models/HandEvaluator.swift:292-314 | the selected positions are strictly increasing, k of them, within range |
| Combinatorics.PositionSelectionsComplete | pokerodds/Models/HandEvaluator.swift:292-314 | every strictly increasing list of k positions is selected |
| Combinatorics.PositionSelectionsDistinct | pokerodds/Models/HandEvaluator.swift:292-314 | no two selections pick the same positions |
| HandEvaluator.RankValues | pokerodds/Models/HandEvaluator.swift:96 | mapping to rank values keeps the length |
| HandEvaluator.RanksDesc | pokerodds/Models/HandEvaluator.swift:96 | the sorted rank values keep the length |
| HandEvaluator.GetRankCounts | pokerodds/Models/HandEvaluator.swift:281-289 | the dictionary has a key for exactly the ranks present, each mapped to how many cards have that rank |
| HandEvaluator.CountPositiveIff | pokerodds/Models/HandEvaluator.swift:281-289 | a rank is counted exactly when some card has it |
| HandEvaluator.RankKeysFacts | pokerodds/Models/HandEvaluator.swift:116 | the dictionary keys are the ranks present, each once, visited highest first |
| HandEvaluator.FirstWithCount | pokerodds/Models/HandEvaluator.swift:116-126 | the first key with count n has count n, and there is none only when no key has that count |
| HandEvaluator.LastWithCount | pokerodds/Models/HandEvaluator.swift:136-142 | the overwriting loop ends on a key with count n, and finds none only when no key has it |
| HandEvaluator.FirstNotIn | pokerodds/Models/HandEvaluator.swift:118 | `keys.first { … }` returns a key outside the excluded ones, or none when there is no such key |
| HandEvaluator.Except | pokerodds/Models/HandEvaluator.swift:180-182 | the filter keeps exactly the keys different from the excluded rank |
| HandEvaluator.KeysWithCount | pokerodds/Models/HandEvaluator.swift:198 | the filter keeps exactly the keys with count n |
| HandEvaluator.QuadLeavesAnotherRank | pokerodds/Models/HandEvaluator.swift:118 | with four of a kind among five cards the force-unwrapped kicker exists |
| HandEvaluator.PairsLeaveAnotherRank | pokerodds/Models/HandEvaluator.swift:201 | with two pairs among five cards the force-unwrapped kicker exists |
| HandEvaluator.PairRanksFacts | pokerodds/Models/HandEvaluator.swift:198 | the pair ranks are distinct, listed highest first, and each is held by exactly two cards |
| HandEvaluator.IsStraight | pokerodds/Models/HandEvaluator.swift:254-266 | the scan gives true exactly when the ascending ranks are consecutive or the cards form the wheel |
| HandEvaluator.IsFlush | pokerodds/Models/HandEvaluator.swift:249-252 | no contract of its own: its partners `FlushIsOneSuit` and `HandCategories.FlushIff` state that it holds exactly when all cards share one suit, and then the flush check matches |
| HandEvaluator.IsWheel | pokerodds/Models/HandEvaluator.swift:268-271 | no contract of its own: its partners `WheelHasFiveCards` and `HandCategories.StraightHighCard` state that a wheel needs five cards and scores 5 as its high card |
| HandEvaluator.HighCardForStraight | pokerodds/Models/HandEvaluator.swift:273-279 | no contract of its own: its partners `HighCardIsTopRank` and `HandCategories.StraightHighCard` state that it is 5 for the wheel and otherwise the highest rank held |
| HandEvaluator.FlushIsOneSuit | pokerodds/Models/HandEvaluator.swift:249-252 | comparing every suit with the first card's decides exactly whether all cards share one suit |
| HandEvaluator.WheelHasFiveCards | pokerodds/Models/HandEvaluator.swift:268-271 | a hand whose rank set is A 2 3 4 5 has at least five cards |
| HandEvaluator.HighCardIsTopRank | pokerodds/Models/HandEvaluator.swift:273-279 | outside the wheel the high card is a rank held, and no rank held exceeds it |
| HandEvaluator.MaxOf | pokerodds/Models/HandEvaluator.swift:278 | `max()!` is an element and no element exceeds it |
| HandEvaluator.CheckRoyalFlush | pokerodds/Models/HandEvaluator.swift:93-104 | a match is a royal flush with no kickers, carrying the given cards |
| HandEvaluator.CheckStraightFlush | pokerodds/Models/HandEvaluator.swift:106-111 | a match is a straight flush with no kickers, carrying the given cards |
| HandEvaluator.CheckFourOfAKind | pokerodds/Models/HandEvaluator.swift:113-129 | a match is four of a kind with one kicker, carrying the given cards |
| HandEvaluator.CheckFullHouse | pokerodds/Models/HandEvaluator.swift:131-154 | a match is a full house with no kickers, carrying the given cards |
| HandEvaluator.CheckFlush | pokerodds/Models/HandEvaluator.swift:156-166 | a match is a flush with four kickers, carrying the given cards |
| HandEvaluator.CheckStraight | pokerodds/Models/HandEvaluator.swift:168-173 | a match is a straight with no kickers, carrying the given cards |
| HandEvaluator.CheckThreeOfAKind | pokerodds/Models/HandEvaluator.swift:175-194 | a match is three of a kind carrying the given cards |
| HandEvaluator.CheckTwoPair | pokerodds/Models/HandEvaluator.swift:196-213 | a match is two pair with one kicker, carrying the given cards |
| HandEvaluator.CheckPair | pokerodds/Models/HandEvaluator.swift:215-234 | a match is a pair carrying the given cards |
| HandEvaluator.CheckHighCard | pokerodds/Models/HandEvaluator.swift:236-245 | the result is high card with four kickers, carrying the given cards |
| HandEvaluator.SortByRank | pokerodds/Models/HandEvaluator.swift:48 | the sorted cards are a permutation, highest rank first |
| HandEvaluator.CheckAt | pokerodds/Models/HandEvaluator.swift:52-86 | each check in the list carries the sorted cards when it matches, and every match other than three of a kind and pair carries its category's kicker count |
| HandEvaluator.EvaluateFrom | pokerodds/Models/HandEvaluator.swift:52-88 | the chain of checks carries the sorted cards |
| HandEvaluator.FirstMatchDecides | pokerodds/Models/HandEvaluator.swift:52-86 | the first check that matches, after none before it did, is the result |
| HandEvaluator.NoMatchIsHighCard | pokerodds/Models/HandEvaluator.swift:88 | when no check matches, the result is the high-card evaluation |
| HandEvaluator.EvaluateFive | pokerodds/Models/HandEvaluator.swift:47-89 | the evaluation carries the five cards sorted by rank |
| HandEvaluator.Evaluations | pokerodds/Models/HandEvaluator.swift:35-36 | one evaluation per selection |
| HandEvaluator.BestIndexFrom | pokerodds/Models/HandEvaluator.swift:35-41 | the scan ends on a valid index |
| HandEvaluator.BestIndexStep | pokerodds/Models/HandEvaluator.swift:38-40 | one step replaces the kept evaluation exactly when it is lower |
| HandEvaluator.ScanStep | pokerodds/Models/HandEvaluator.swift:36-40 | one loop step keeps an evaluation that leads to the scan's final index |
| HandEvaluator.HandSelections | pokerodds/Models/HandEvaluator.swift:33 | five or more cards have at least one five-card selection, all of length five |
| HandEvaluator.EvaluateSelection | pokerodds/Models/HandEvaluator.swift:36 | evaluating the selection at i gives the i-th evaluation |
| HandEvaluator.KeepBest | pokerodds/Models/HandEvaluator.swift:30-43 | the loop ends with the evaluation the scan keeps |
| HandEvaluator.FindBestFiveCardHand | pokerodds/Models/HandEvaluator.swift:29-44 | the result is the kept best evaluation over all five-card selections |
| HandEvaluator.EvaluateHand | pokerodds/Models/HandEvaluator.swift:14-26 | at least five cards are required. Five cards are evaluated directly; more give the best selection |
| HandEvaluator.BestIndexIsMax | pokerodds/Models/HandEvaluator.swift:35-41 | no evaluation is above the kept one |
| HandEvaluator.BestIndexIsFirst | pokerodds/Models/HandEvaluator.swift:35-41 | when all evaluations are comparable, every earlier evaluation is strictly lower: the kept one is the first maximum. `HandCategories.SelectionsComparable` discharges the hypothesis for every hand |
| HandEvaluator.BestHandIsMax | pokerodds/Models/HandEvaluator.swift:14-44 | the best hand is at least as high as the evaluation of every five cards picked from the hand |
| HandEvaluator.BestHandIsAchieved | pokerodds/Models/HandEvaluator.swift:14-44 | the best hand is the evaluation of some five cards picked from the hand |
| HandEvaluator.SelectionAt | pokerodds/Models/HandEvaluator.swift:33 | each selection picks five increasing positions of the hand |
| HandEvaluator.SelectionEvaluation | pokerodds/Models/HandEvaluator.swift:33 | every five increasing positions are one of the selections |
| HandCategories.RoyalRanksIff | pokerodds/Models/HandEvaluator.swift:96-99 | the ranks sort to A K Q J 10 exactly when those are the rank values held |
| HandCategories.RoyalFlushIff | pokerodds/Models/HandEvaluator.swift:93-104 | royal flush exactly when one suit holds the ranks A K Q J 10; the primary value is 14 |
| HandCategories.StraightHasDistinctRanks | pokerodds/Models/HandEvaluator.swift:254-271 | a straight never repeats a rank |
| HandCategories.StraightHighCard | pokerodds/Models/HandEvaluator.swift:273-279 | the straight's high card is 5 for the wheel, and otherwise the top rank, four above the lowest |
| HandCategories.MaxIsTopRank | pokerodds/Models/HandEvaluator.swift:278 | the maximum rank is the head of the descending sort |
| HandCategories.StraightFlushIff | pokerodds/Models/HandEvaluator.swift:106-111 | straight flush exactly when one suit holds a straight; the primary value is the straight's high card |
| HandCategories.FourOfAKindIff | pokerodds/Models/HandEvaluator.swift:113-129 | four of a kind exactly when a rank has four cards; it is the primary value and the one kicker is the other rank |
| HandCategories.FullHouseIff | pokerodds/Models/HandEvaluator.swift:131-154 | full house exactly when one rank has three cards and one has two; these are the primary and secondary values |
| HandCategories.FlushIff | pokerodds/Models/HandEvaluator.swift:156-166 | flush exactly when one suit; the primary value and the kickers are the five ranks, highest first |
| HandCategories.StraightIff | pokerodds/Models/HandEvaluator.swift:168-173 | straight exactly when the ranks are consecutive or the wheel; the primary value is the high card |
| HandCategories.ThreeOfAKindIff | pokerodds/Models/HandEvaluator.swift:175-194 | three of a kind exactly when a rank has three cards; it is the primary value, and the kickers are the other ranks present, highest first |
| HandCategories.TwoPairIff | pokerodds/Models/HandEvaluator.swift:196-213 | two pair exactly when two ranks have two cards each; the higher is primary, the lower secondary, and the kicker is the fifth rank |
| HandCategories.PairIff | pokerodds/Models/HandEvaluator.swift:215-234 | pair exactly when a rank has two cards; it is primary, and the kickers are the other ranks present, highest first |
| HandCategories.HighCardValues | pokerodds/Models/HandEvaluator.swift:236-245 | the primary value then the kickers are the five ranks, highest first |
| HandCategories.CountTwoBound | pokerodds/Models/HandEvaluator.swift:281-289 | two different ranks together count at most all the cards |
| HandCategories.CountThreeBound | pokerodds/Models/HandEvaluator.swift:281-289 | three different ranks together count at most all the cards |
| HandCategories.DistinctRestCount | pokerodds/Models/HandEvaluator.swift:175-234 | when one rank is set apart and every other rank appears at most once, the other ranks present number the cards less that rank's count |
| HandCategories.NoPairBesideTrips | pokerodds/Models/HandEvaluator.swift:131-194 | five cards with three of a rank that are not a full house hold no rank exactly twice |
| HandCategories.TripsKickersFit | pokerodds/Models/HandEvaluator.swift:175-194 | a three-of-a-kind evaluation listing the other ranks present, with no pair beside it, has two kickers |
| HandCategories.TripsKickers | pokerodds/Models/HandEvaluator.swift:175-194 | a three of a kind that is not a full house carries two kickers |
| HandCategories.PairKickers | pokerodds/Models/HandEvaluator.swift:215-234 | a pair that is neither three of a kind nor two pair carries three kickers |
| HandCategories.EvaluateFromKickers | pokerodds/Models/HandEvaluator.swift:52-89 | the evaluation reached from any step of the chain carries its category's kicker count |
| HandCategories.EvaluateFiveKickers | pokerodds/Models/HandEvaluator.swift:47-89 | every five-card evaluation carries its category's kicker count |
| HandCategories.FittingComparable | pokerodds/Models/HandRank.swift:70-102 | two evaluations carrying their categories' kicker counts are ordered one way or the other, or `==` |
| HandCategories.SelectionsComparable | pokerodds/Models/HandEvaluator.swift:29-44 | every selection has five cards and any two of their evaluations are comparable |
| HandCategories.BestHandIsFirstMax | pokerodds/Models/HandEvaluator.swift:29-44 | with more than five cards, the kept evaluation is the first maximum of all the selections' evaluations: every earlier one is strictly lower and none is higher |
| HandCategories.BestHandKickers | pokerodds/Models/HandEvaluator.swift:14-44 | the best hand carries its category's kicker count |
| MonteCarlo.Percentage | pokerodds/Simulation/MonteCarloEngine.swift:19-31 | each percentage is 0 when nothing was simulated, lies in [0, 100], and is part / total × 100 |
| MonteCarlo.PercentagesSumTo100 | pokerodds/Simulation/MonteCarloEngine.swift:19-31 | when every simulation is counted once, the three percentages add up to 100 |
| MonteCarlo.WinPercentage | pokerodds/Simulation/MonteCarloEngine.swift:19-21 | no contract of its own: it is `Percentage` of the wins, whose contract gives 0 for an empty run and wins/total×100 otherwise; `PercentagesSumTo100` adds the three up to 100 |
| MonteCarlo.TiePercentage | pokerodds/Simulation/MonteCarloEngine.swift:24-26 | no contract of its own: it is `Percentage` of the ties, with the same contract; `PercentagesSumTo100` adds the three up to 100 |
| MonteCarlo.LossPercentage | pokerodds/Simulation/MonteCarloEngine.swift:29-31 | no contract of its own: it is `Percentage` of the losses, with the same contract; `PercentagesSumTo100` adds the three up to 100 |
| MonteCarlo.ShowdownSwap | pokerodds/Simulation/MonteCarloEngine.swift:181-187 | from the other seat a win is a loss and a tie is a tie; a loss is a win when the kicker counts match, which `DealtShowdownSwap` shows for every dealt hand |
| MonteCarlo.Showdown | pokerodds/Simulation/MonteCarloEngine.swift:181-187 | no contract of its own: its partners `ShowdownTieIff`, `ShowdownSwap` and `DealtShowdownSwap` state that a tie is scored exactly on `==` and that the other seat sees the mirror image |
| MonteCarlo.ShowdownTieIff | pokerodds/Simulation/MonteCarloEngine.swift:181-187 | a tie is scored exactly when the two evaluations are `==` |
| MonteCarlo.DealtShowdownSwap | pokerodds/Simulation/MonteCarloEngine.swift:176-187 | for two hands as `evaluateHand` scores them, a win is a loss, a tie a tie and a loss a win from the other seat |
| MonteCarlo.Score | pokerodds/Simulation/MonteCarloEngine.swift:154-190 | the three counters add up to the number of outcomes |
| MonteCarlo.ScoreCounts | pokerodds/Simulation/MonteCarloEngine.swift:180-187 | each counter equals the number of outcomes of its kind |
| MonteCarlo.ScoreAppend | pokerodds/Simulation/MonteCarloEngine.swift:124-126 | tallying two runs in turn adds their counters |
| MonteCarlo.EvaluatesToIff | pokerodds/Simulation/MonteCarloEngine.swift:177-178 | a recorded evaluation is exactly `evaluateHand` of at least five cards |
| MonteCarlo.ValidDealsIff | pokerodds/Simulation/MonteCarloEngine.swift:159-178 | a list of deals is valid exactly when every deal in it is |
| MonteCarlo.ValidDealsAppend | pokerodds/Simulation/MonteCarloEngine.swift:110-126 | the deals of two batches together are valid |
| MonteCarlo.Outcomes | pokerodds/Simulation/MonteCarloEngine.swift:180-187 | one outcome per deal |
| MonteCarlo.OutcomesAppend | pokerodds/Simulation/MonteCarloEngine.swift:110-126 | the outcomes of two batches are those of the first, then those of the second |
| MonteCarlo.Record | pokerodds/Simulation/MonteCarloEngine.swift:180-187 | one iteration bumps exactly the counter of the outcome: `>` wins, `==` ties, anything else loses |
| MonteCarlo.ScoreStep | pokerodds/Simulation/MonteCarloEngine.swift:180-187 | scoring one more deal adds its outcome to the counters |
| MonteCarlo.DistinctJoin | pokerodds/Simulation/MonteCarloEngine.swift:165-174 | the opponent's cards and the board cards together have no repeats |
| MonteCarlo.SimulateBatch | pokerodds/Simulation/MonteCarloEngine.swift:147-191 | with at least two cards left, every iteration is scored. Every deal is valid, and the counters are exactly the tally of the deals' outcomes |
| MonteCarlo.TotalBatchesCover | pokerodds/Simulation/MonteCarloEngine.swift:107-108 | ceil(iterations / 1000) batches cover the iterations and the last one is not empty |
| MonteCarlo.BatchesRunAll | pokerodds/Simulation/MonteCarloEngine.swift:116 | each batch has 1 to 1000 iterations, and the first k batches run min(1000k, iterations) |
| MonteCarlo.TotalBatches | pokerodds/Simulation/MonteCarloEngine.swift:107-108 | no contract of its own: its partners `TotalBatchesCover` and `BatchesRunTotal` state that the batches just cover the iterations and that their sizes sum to exactly the iterations |
| MonteCarlo.CurrentBatchSize | pokerodds/Simulation/MonteCarloEngine.swift:116 | no contract of its own: its partner `BatchesRunAll` states that every batch has 1 to 1000 iterations and the first k batches run min(1000k, iterations) |
| MonteCarlo.BatchesRunTotal | pokerodds/Simulation/MonteCarloEngine.swift:107-116 | all batches together run exactly the requested iterations |
| MonteCarlo.ProgressRises | pokerodds/Simulation/MonteCarloEngine.swift:129 | progress rises strictly, stays in (0, 1] and reaches 1 only after the final batch |
| MonteCarlo.ProgressExtend | pokerodds/Simulation/MonteCarloEngine.swift:128-132 | reporting the next batch extends the list of progress values in order |
| MonteCarlo.Progress | pokerodds/Simulation/MonteCarloEngine.swift:129 | no contract of its own: its partners `ProgressRises` and `ProgressExtend` state that the reports rise strictly within (0, 1] and reach 1 after the last batch |
| MonteCarlo.Accumulate | pokerodds/Simulation/MonteCarloEngine.swift:124-126 | adding a batch's counters keeps the running counters equal to the tally of all deals so far |
| MonteCarlo.RunBatch | pokerodds/Simulation/MonteCarloEngine.swift:116-126 | one batch deals its full size from a copy of the deck and adds exactly its tally |
| MonteCarlo.ReportProgress | pokerodds/Simulation/MonteCarloEngine.swift:128-132 | after a batch the report list gains exactly that batch's fraction, and stays the rising sequence of reports |
| MonteCarlo.RunBatches | pokerodds/Simulation/MonteCarloEngine.swift:110-133 | the batch loop stops at the first cancelled check, and only then. Every batch before it reports its progress, and an uncancelled run deals every iteration, with the counters the tally of all deals |
| MonteCarlo.Simulate | pokerodds/Simulation/MonteCarloEngine.swift:66-144 | rejected input gives no result and no progress. Otherwise the result is absent exactly when a check saw the token cancelled, never partial, and a result counts every requested iteration as the tally of valid deals |
| MonteCarlo.SimulateSync | pokerodds/Simulation/MonteCarloEngine.swift:194-215 | without cancellation, a result exists exactly when the input is accepted, and it counts every iteration |
| MonteCarlo.EstimatedDuration | pokerodds/Simulation/MonteCarloEngine.swift:218-222 | the estimate times 50000 is the iteration count |
| MonteCarlo.EstimatedDurationMonotone | pokerodds/Simulation/MonteCarloEngine.swift:218-222 | more iterations never give a smaller estimate |
| MonteCarlo.ValidateConfigurationIff | pokerodds/Simulation/MonteCarloEngine.swift:225-253 | no error exactly when there are 2 hole cards, at most 5 board cards, 5000..100000 iterations and no repeated card. The duplicate error is reported only when every earlier check passes |
| MonteCarlo.ValidatedIsAccepted | pokerodds/Simulation/MonteCarloEngine.swift:225-253 | a configuration that validates is one `simulate` runs |
| MonteCarlo.InputAccepted | pokerodds/Simulation/MonteCarloEngine.swift:75-95 | no contract of its own: its partners `Simulate`, `ValidatedIsAccepted`, `SimulateAcceptsMoreThanValidated` and `OddsViewModels.CanRunIsAccepted` state that exactly these inputs get a result, that validated ones pass, and that it admits more iterations than validation |
| MonteCarlo.ValidateConfiguration | pokerodds/Simulation/MonteCarloEngine.swift:225-253 | no contract of its own: its partner `ValidateConfigurationIff` states when it reports nothing and when it reports a duplicate |
| MonteCarlo.SimulateAcceptsMoreThanValidated | pokerodds/Simulation/MonteCarloEngine.swift:85 | 150000 iterations pass `simulate`'s check but fail `validateConfiguration`'s |
| MonteCarlo.CancellationToken.constructor | pokerodds/Simulation/MonteCarloEngine.swift:35-36 | a new token is not cancelled |
| MonteCarlo.CancellationToken.Cancel | pokerodds/Simulation/MonteCarloEngine.swift:45-49 | after `cancel` the token reads cancelled |
| MonteCarlo.CancellationToken.IsCancelled | pokerodds/Simulation/MonteCarloEngine.swift:39-43 | no contract of its own: the contracts of the constructor and `Cancel` state that it reads false on a new token and true once `cancel` has run |
| OddsViewModels.StatesEqual | pokerodds/ViewModels/OddsViewModel.swift:12-32 | the hand-written `==` on the simulation state is exactly structural equality |
| OddsViewModels.ClampIterations | pokerodds/ViewModels/OddsViewModel.swift:351-355 | the count lies in [5000, max], where max is 200000 in high-precision mode and 100000 otherwise. A value in range is kept; one outside is moved to the nearer bound |
| OddsViewModels.MaxIterations | pokerodds/ViewModels/OddsViewModel.swift:353 | no contract of its own: its partners `MaxIterationsBounds` and `ClampIterations` state its two values and that clamping stays under it |
| OddsViewModels.MaxIterationsBounds | pokerodds/ViewModels/OddsViewModel.swift:418-421 | the ceiling is 200000 in high-precision mode and otherwise 100000, the engine's validation ceiling; both lie above the 5000 minimum |
| OddsViewModels.CanRun | pokerodds/ViewModels/OddsViewModel.swift:120-143 | a run may start exactly when there are two hole cards, no run is in progress, and no card is selected twice |
| OddsViewModels.Put | pokerodds/ViewModels/OddsViewModel.swift:296-332 | only the addressed slot changes, and only when its index is in range |
| OddsViewModels.PutSelection | pokerodds/ViewModels/OddsViewModel.swift:296-332 | a slot write swaps the slot's old card for the new value among the selected cards |
| OddsViewModels.SelectAddsCard | pokerodds/ViewModels/OddsViewModel.swift:323-332 | a card not yet selected is selected afterwards exactly when the index was in range |
| OddsViewModels.SelectKeepsDistinct | pokerodds/ViewModels/OddsViewModel.swift:316-332 | selecting a card not yet selected never introduces a duplicate |
| OddsViewModels.RemoveKeepsDistinct | pokerodds/ViewModels/OddsViewModel.swift:296-306 | removing keeps the selection free of duplicates, and the removed card is no longer selected |
| OddsViewModels.ValidateInOrder | pokerodds/ViewModels/OddsViewModel.swift:404-425 | the checks run in the order hand, duplicates, minimum, maximum. Each problem is reported exactly when the earlier checks pass and its own fails, and nothing is reported exactly when all pass |
| OddsViewModels.Validate | pokerodds/ViewModels/OddsViewModel.swift:404-425 | no contract of its own: its partner `ValidateInOrder` states that each problem is reported exactly when the earlier checks pass and its own fails |
| OddsViewModels.CanRunMatchesValidate | pokerodds/ViewModels/OddsViewModel.swift:125-143 | a valid configuration can run unless a run is in progress. One that can run fails validation only on the iteration count |
| OddsViewModels.CanRunIsAccepted | pokerodds/ViewModels/OddsViewModel.swift:360-367 | a run the view model lets start passes every input check of `simulate` |
| OddsViewModels.Report | pokerodds/ViewModels/OddsViewModel.swift:268-270 | no contract of its own: its partner `ReportIff` states that a problem becomes its message and no problem clears the message |
| OddsViewModels.ReportIff | pokerodds/ViewModels/OddsViewModel.swift:267-270 | the message is empty exactly when validation finds no problem, otherwise it names that problem, and it is never the duplicate-pick message |
| OddsViewModels.Simulate | pokerodds/ViewModels/OddsViewModel.swift:365-370 | on accepted input the engine returns nothing exactly when a batch saw the token cancelled, and otherwise counts every iteration |
| OddsViewModels.OddsViewModel.constructor | pokerodds/ViewModels/OddsViewModel.swift:41-80 | starts with two and five empty slots, idle, no result, 20000 iterations, fast mode and high precision off |
| OddsViewModels.OddsViewModel.ValidPlayerCards | pokerodds/ViewModels/OddsViewModel.swift:105-107 | no contract of its own: its partners `Sequences.CompactMapMembers` and `ComputedProperties` state that it holds exactly the filled hole-card slots' cards, in slot order |
| OddsViewModels.OddsViewModel.ValidCommunityCards | pokerodds/ViewModels/OddsViewModel.swift:110-112 | no contract of its own: its partner `Sequences.CompactMapMembers` states that it holds exactly the filled board slots' cards, in slot order |
| OddsViewModels.OddsViewModel.AllSelectedCards | pokerodds/ViewModels/OddsViewModel.swift:115-117 | no contract of its own: its partner `ComputedProperties` states that it is the valid hole cards then the valid board cards |
| OddsViewModels.OddsViewModel.HasCardDuplicates | pokerodds/ViewModels/OddsViewModel.swift:140-143 | no contract of its own: its partner `ComputedProperties` states that it holds exactly when two selected positions hold the same card |
| OddsViewModels.OddsViewModel.CanRunSimulation | pokerodds/ViewModels/OddsViewModel.swift:125-129 | no contract of its own: its partners `ComputedProperties` and `CanRun` state that a run may start exactly on a complete hand, with no run in progress and no duplicate |
| OddsViewModels.OddsViewModel.ValidateConfiguration | pokerodds/ViewModels/OddsViewModel.swift:404-425 | no contract of its own: its partners `ValidateInOrder` and `ComputedProperties` state the order of the four checks and that passing them means a complete hand without duplicates |
| OddsViewModels.OddsViewModel.ComputedProperties | pokerodds/ViewModels/OddsViewModel.swift:104-143 | the selected cards are the valid hole cards then the valid board cards; duplicates mean two positions holding one card; a run may start exactly on a complete hand with no run in progress and no duplicate; a configuration that validates has a complete hand without duplicates |
| OddsViewModels.OddsViewModel.SetFastMode | pokerodds/ViewModels/OddsViewModel.swift:62-66 | setting fast mode sets the count to 8000 when on and 20000 when off, and keeps the class invariant |
| OddsViewModels.OddsViewModel.ActivateHighPrecisionMode | pokerodds/ViewModels/OddsViewModel.swift:177-188 | turns high precision on; outside fast mode the count becomes 200000 |
| OddsViewModels.OddsViewModel.DeactivateHighPrecisionMode | pokerodds/ViewModels/OddsViewModel.swift:200-212 | turns high precision off; outside fast mode a count above 100000 drops to 100000 |
| OddsViewModels.OddsViewModel.UpdateIterations | pokerodds/ViewModels/OddsViewModel.swift:351-355 | the count becomes the clamped request, and the class invariant holds |
| OddsViewModels.OddsViewModel.CancelSimulation | pokerodds/ViewModels/OddsViewModel.swift:279-283 | the token, if any, is cancelled; the state is cancelled and the progress is 0 |
| OddsViewModels.OddsViewModel.ClearAllCards | pokerodds/ViewModels/OddsViewModel.swift:286-293 | two and five empty slots, no selected card, no result, idle, progress 0, no message |
| OddsViewModels.OddsViewModel.RemoveCard | pokerodds/ViewModels/OddsViewModel.swift:296-313 | only the addressed in-range slot is emptied. A stored result is dropped with the state back to idle, and no duplicate appears |
| OddsViewModels.OddsViewModel.SelectCard | pokerodds/ViewModels/OddsViewModel.swift:316-342 | a card already selected sets the message and changes nothing else. Otherwise only the addressed slot takes the card, a result is dropped, the message clears and the picker closes; no duplicate ever appears |
| OddsViewModels.OddsViewModel.RunSimulation | pokerodds/ViewModels/OddsViewModel.swift:267-276 | when the run may not start, only the message changes, to the validation verdict; otherwise the run is performed |
| OddsViewModels.OddsViewModel.PerformSimulation | pokerodds/ViewModels/OddsViewModel.swift:360-401 | the run ends completed exactly when no batch saw the token cancelled, with a result for every iteration, and otherwise cancelled, never in error. Progress ends at 0 and the token is cleared |

## Left out

- **Platform and environment:**
  - Concurrency: `async`/`await`, `Task`, `MainActor.run`, the `NSLock` inside `CancellationToken` and the `DispatchSemaphore` of `simulateSync`. Runs are sequential.
  - Because runs are sequential, the view model's interleavings are not captured. One example is `cancelSimulation` during a run whose `performSimulation` later overwrites the state. Another is a second run replacing the first run's token.
  - The clock: `elapsedTime` is not part of `SimulationResult` here. The premium-mode `Timer`, the expiry time and `premiumTimeRemaining` depend on `Date()`, so only the activation and deactivation steps are modelled.
  - Randomness is a nondeterministic choice; the uniformity of `randomElement()` is not modelled.
  - `Double` is modelled as `real`. Rounding and the statistical accuracy of the estimate are not modelled.
  - Text: localised messages, `formatPercentage`, the `estimatedDuration` text, the card-position descriptions and the `print` diagnostics. Error messages are modelled as datatype values.
  - Views, ads, haptics, `shouldScrollToResult`, `showingSettings`, `openCardPicker`/`currentEditingPosition`, `shouldReduceMotion` and `AdManager`.
- **Not modelled because nothing else uses it:** the view model's `availableCards`, which filters the deck by the selected cards.
- **How source values map to the model:**
  - Swift's `Dictionary` iteration order is unspecified. The model visits the rank-count keys from the highest rank down.
    - For four of a kind and three of a kind, at most one key of a five-card hand has the count the loop looks for, so the order does not matter there.
    - `HandEvaluator.CheckPair` depends on the order when it is given a two-pair hand. `checkPair`'s loop returns whichever count-2 key the dictionary yields first, and the model always takes the higher one. `evaluateFiveCards` never hands `checkPair` such a hand, because `checkTwoPair` runs before it.
    - `checkFullHouse`'s loop keeps the last count-2 key. Two count-2 keys occur only in a two-pair hand, which has no count-3 key, so `checkFullHouse` returns nil for it whatever the order.
    - So `evaluateFiveCards`, and `HandEvaluator.EvaluateFive` with it, does not depend on the dictionary order.
  - `Int` is unbounded here. No counter in the core comes near 64 bits.
  - `OddsViewModels.OddsViewModel.RemoveCard` and `SelectCard` require a non-negative index. Swift traps on a negative one; for `SelectCard` this applies only once the card has passed the duplicate check.
  - `Decks.Deck.DrawRandomCards` takes a natural count, because a negative count traps in the source's `0..<count`.
  - `HandEvaluator.EvaluateHand` requires five or more cards, because fewer reach `fatalError`.
- **Invariant assumption:** `iterationsCount` is assumed to be written only through the view model's methods. The settings slider goes through `updateIterations` and the fast-mode toggle through the setter.
