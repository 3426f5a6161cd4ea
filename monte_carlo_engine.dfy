/**
 * The Monte Carlo engine: for a player's two hole cards and the community
 * cards known so far, deal the opponent two random cards and complete the
 * board, many times over, and count how often the player's best hand beats,
 * ties or loses to the opponent's. Work is split into batches of 1000; the
 * cancellation token is consulted before each batch and progress is reported
 * after each one.
 */
module MonteCarlo {
  import opened Wrappers
  import opened Cards
  import opened Sequences
  import opened HandRanks
  import opened HandEvaluator
  import opened Decks
  import HandCategories

  /** The fewest iterations a simulation runs. */
  const MinIterations: int := 5000
  /** `AdConfiguration.maxPremiumIterations`: the most iterations `simulate` accepts. */
  const MaxPremiumIterations: int := 200000
  /** The most iterations `validateConfiguration` accepts. */
  const MaxValidatedIterations: int := 100000
  /** Iterations per batch; cancellation and progress happen between batches. */
  const BatchSize: nat := 1000
  /** The throughput `estimatedDuration` assumes. */
  const IterationsPerSecond: real := 50000.0

  /** `SimulationResult`, without the elapsed wall-clock time. */
  datatype SimulationResult = SimulationResult(wins: nat, ties: nat, losses: nat, totalSimulations: nat)

  /** `part` out of `total` as a percentage, zero when nothing was simulated. */
  function Percentage(part: nat, total: nat): (p: real)
    ensures total == 0 ==> p == 0.0
    ensures 0.0 <= p
    ensures part <= total ==> p <= 100.0
    ensures total > 0 ==> p * total as real == part as real * 100.0
  {
    if total > 0 then part as real / total as real * 100.0 else 0.0
  }

  function WinPercentage(r: SimulationResult): real
  {
    Percentage(r.wins, r.totalSimulations)
  }

  function TiePercentage(r: SimulationResult): real
  {
    Percentage(r.ties, r.totalSimulations)
  }

  function LossPercentage(r: SimulationResult): real
  {
    Percentage(r.losses, r.totalSimulations)
  }

  /** When every simulation was scored once, the three percentages add up to 100. */
  lemma PercentagesSumTo100(r: SimulationResult)
    requires r.totalSimulations > 0 && r.wins + r.ties + r.losses == r.totalSimulations
    ensures WinPercentage(r) + TiePercentage(r) + LossPercentage(r) == 100.0
  {
    var t := r.totalSimulations as real;
    var w, ti, l := WinPercentage(r), TiePercentage(r), LossPercentage(r);
    assert w * t == r.wins as real * 100.0;
    assert ti * t == r.ties as real * 100.0;
    assert l * t == r.losses as real * 100.0;
    assert r.wins as real + r.ties as real + r.losses as real == t;
    calc {
      w * t + ti * t + l * t;
      r.wins as real * 100.0 + r.ties as real * 100.0 + r.losses as real * 100.0;
      (r.wins as real + r.ties as real + r.losses as real) * 100.0;
      100.0 * t;
    }
    DistributeOver(w, ti, l, t);
    CancelFactor(w + ti + l, 100.0, t);
  }

  lemma DistributeOver(x: real, y: real, z: real, t: real)
    ensures (x + y + z) * t == x * t + y * t + z * t
  {
  }

  /** A non-zero factor cancels. */
  lemma CancelFactor(x: real, y: real, t: real)
    requires t != 0.0 && x * t == y * t
    ensures x == y
  {
    assert (x - y) * t == 0.0;
  }

  /** How one iteration is scored: the player wins when their hand is above the opponent's, ties on `==`. */
  datatype Outcome = Win | Tie | Loss

  function Showdown(player: HandEvaluation, opponent: HandEvaluation): Outcome
  {
    if Less(opponent, player) then Win
    else if SameStrength(player, opponent) then Tie
    else Loss
  }

  /** A tie is scored exactly when the two evaluations are `==`. */
  lemma ShowdownTieIff(player: HandEvaluation, opponent: HandEvaluation)
    ensures Showdown(player, opponent) == Tie <==> SameStrength(player, opponent)
  {
    KickersLessIrreflexive(player.kickers);
  }

  /**
   * Seen from the other seat a win is a loss and a tie is a tie; a loss is a
   * win for the other seat when both evaluations carry as many kickers.
   */
  lemma ShowdownSwap(a: HandEvaluation, b: HandEvaluation)
    ensures Showdown(a, b) == Win ==> Showdown(b, a) == Loss
    ensures Showdown(a, b) == Tie <==> Showdown(b, a) == Tie
    ensures Showdown(a, b) == Loss && |a.kickers| == |b.kickers| ==> Showdown(b, a) == Win
  {
    LessIsStrict(a, b);
    if SameStrength(a, b) {
      SameStrengthIsUnordered(a, b);
    }
    if |a.kickers| == |b.kickers| {
      Trichotomy(a, b);
    }
  }

  /**
   * For two hands as `evaluateHand` scores them, the other seat sees the
   * mirror image: a win is a loss, a tie a tie and a loss a win.
   */
  lemma DealtShowdownSwap(player: seq<Card>, opponent: seq<Card>, a: HandEvaluation, b: HandEvaluation)
    requires EvaluatesTo(player, a) && EvaluatesTo(opponent, b)
    ensures Showdown(a, b) == Win <==> Showdown(b, a) == Loss
    ensures Showdown(a, b) == Tie <==> Showdown(b, a) == Tie
    ensures Showdown(a, b) == Loss <==> Showdown(b, a) == Win
  {
    EvaluatesToIff(player, a);
    EvaluatesToIff(opponent, b);
    HandCategories.BestHandKickers(player);
    HandCategories.BestHandKickers(opponent);
    HandCategories.FittingComparable(a, b);
    LessIsStrict(a, b);
    if SameStrength(a, b) {
      SameStrengthIsUnordered(a, b);
    }
  }

  /** The counters `simulateBatch` returns. */
  datatype BatchResult = BatchResult(wins: nat, ties: nat, losses: nat)

  function Plus(a: BatchResult, b: BatchResult): BatchResult
  {
    BatchResult(a.wins + b.wins, a.ties + b.ties, a.losses + b.losses)
  }

  /** The counter bump for one outcome. */
  function Bump(o: Outcome): BatchResult
  {
    match o
    case Win => BatchResult(1, 0, 0)
    case Tie => BatchResult(0, 1, 0)
    case Loss => BatchResult(0, 0, 1)
  }

  /** The counters after scoring `outcomes` one after the other from zero. */
  function Score(outcomes: seq<Outcome>): (r: BatchResult)
    ensures r.wins + r.ties + r.losses == |outcomes|
  {
    if outcomes == [] then BatchResult(0, 0, 0)
    else Plus(Score(outcomes[..|outcomes| - 1]), Bump(outcomes[|outcomes| - 1]))
  }

  /** Each counter holds how many outcomes of its kind there are. */
  lemma {:induction false} ScoreCounts(outcomes: seq<Outcome>)
    ensures Score(outcomes).wins == multiset(outcomes)[Win]
    ensures Score(outcomes).ties == multiset(outcomes)[Tie]
    ensures Score(outcomes).losses == multiset(outcomes)[Loss]
  {
    if outcomes != [] {
      var init := outcomes[..|outcomes| - 1];
      assert outcomes == init + [outcomes[|outcomes| - 1]];
      ScoreCounts(init);
    }
  }

  /** Scoring two runs one after the other adds their counters. */
  lemma {:induction false} ScoreAppend(a: seq<Outcome>, b: seq<Outcome>)
    ensures Score(a + b) == Plus(Score(a), Score(b))
    decreases |b|
  {
    if b == [] {
      assert a + b == a;
    } else {
      var b', last := b[..|b| - 1], b[|b| - 1];
      calc {
        Score(a + b);
        { assert (a + b)[..|a + b| - 1] == a + b' && (a + b)[|a + b| - 1] == last; }
        Plus(Score(a + b'), Bump(last));
        { ScoreAppend(a, b'); }
        Plus(Plus(Score(a), Score(b')), Bump(last));
        Plus(Score(a), Score(b));
      }
    }
  }

  /**
   * One scored iteration: the opponent's two cards, the cards completing the
   * board, and the two evaluations compared.
   */
  datatype Deal = Deal(opponent: seq<Card>, board: seq<Card>,
                       playerHand: HandEvaluation, opponentHand: HandEvaluation)

  /**
   * `e` is what `evaluateHand` gives `cards`: at least five cards, and the
   * best evaluation of them. The equation is quantified so that it is only
   * brought in where `BestHand` of those very cards is asked for.
   */
  ghost predicate EvaluatesTo(cards: seq<Card>, e: HandEvaluation)
  {
    |cards| >= 5 && forall hand {:trigger BestHand(hand)} :: hand == cards ==> |hand| >= 5 && e == BestHand(hand)
  }

  /** Without the quantifier: exactly the evaluation `evaluateHand` returns. */
  lemma EvaluatesToIff(cards: seq<Card>, e: HandEvaluation)
    ensures EvaluatesTo(cards, e) <==> |cards| >= 5 && e == BestHand(cards)
  {
  }

  /**
   * A deal `simulateBatch` can make from a deck whose used cards are `known`:
   * two opponent cards and enough board cards to make five, all different
   * and none of them known, and each side evaluated as its best hand out of
   * its own cards and the full board.
   */
  ghost predicate ValidDeal(known: set<Card>, player: seq<Card>, community: seq<Card>, d: Deal)
  {
    |d.opponent| == 2 && |community| + |d.board| == 5
    && PairwiseDistinct(d.opponent + d.board)
    && (forall c :: c in d.opponent + d.board ==> c !in known)
    && EvaluatesTo(player + (community + d.board), d.playerHand)
    && EvaluatesTo(d.opponent + (community + d.board), d.opponentHand)
  }

  /** Every deal in `deals` is valid; defined from the back, one deal after another. */
  ghost predicate ValidDeals(known: set<Card>, player: seq<Card>, community: seq<Card>, deals: seq<Deal>)
    decreases |deals|
  {
    deals == [] ||
    (ValidDeals(known, player, community, deals[..|deals| - 1])
     && ValidDeal(known, player, community, deals[|deals| - 1]))
  }

  /** `ValidDeals` holds exactly when each deal, at every position, is valid. */
  lemma {:induction false} ValidDealsIff(known: set<Card>, player: seq<Card>, community: seq<Card>, deals: seq<Deal>)
    ensures ValidDeals(known, player, community, deals)
        <==> forall i :: 0 <= i < |deals| ==> ValidDeal(known, player, community, deals[i])
    decreases |deals|
  {
    if deals != [] {
      var init := deals[..|deals| - 1];
      ValidDealsIff(known, player, community, init);
      assert forall i :: 0 <= i < |init| ==> init[i] == deals[i];
    }
  }

  lemma {:induction false} ValidDealsAppend(known: set<Card>, player: seq<Card>, community: seq<Card>, a: seq<Deal>, b: seq<Deal>)
    requires ValidDeals(known, player, community, a) && ValidDeals(known, player, community, b)
    ensures ValidDeals(known, player, community, a + b)
    decreases |b|
  {
    if b == [] {
      assert a + b == a;
    } else {
      var b' := b[..|b| - 1];
      assert (a + b)[..|a + b| - 1] == a + b';
      assert (a + b)[|a + b| - 1] == b[|b| - 1];
      ValidDealsAppend(known, player, community, a, b');
    }
  }

  /** The outcome of each deal, in order. */
  function Outcomes(deals: seq<Deal>): (os: seq<Outcome>)
    ensures |os| == |deals|
  {
    if deals == [] then []
    else
      var d := deals[|deals| - 1];
      Outcomes(deals[..|deals| - 1]) + [Showdown(d.playerHand, d.opponentHand)]
  }

  /** Deals made one batch after another score as the two batches' outcomes in order. */
  lemma {:induction false} OutcomesAppend(a: seq<Deal>, b: seq<Deal>)
    ensures Outcomes(a + b) == Outcomes(a) + Outcomes(b)
    decreases |b|
  {
    if b == [] {
      assert a + b == a;
    } else {
      var b' := b[..|b| - 1];
      assert (a + b)[..|a + b| - 1] == a + b';
      OutcomesAppend(a, b');
    }
  }

  /** Scores one iteration as `simulateBatch` does: `>` wins, `==` ties, anything else loses. */
  method Record(counts: BatchResult, playerHand: HandEvaluation, opponentHand: HandEvaluation)
    returns (next: BatchResult)
    ensures next == Plus(counts, Bump(Showdown(playerHand, opponentHand)))
  {
    if Less(opponentHand, playerHand) {
      next := counts.(wins := counts.wins + 1);
    } else if SameStrength(playerHand, opponentHand) {
      next := counts.(ties := counts.ties + 1);
    } else {
      next := counts.(losses := counts.losses + 1);
    }
  }

  /** Scoring one more deal adds its outcome to the counters. */
  lemma ScoreStep(deals: seq<Deal>, d: Deal)
    ensures Score(Outcomes(deals + [d])) == Plus(Score(Outcomes(deals)), Bump(Showdown(d.playerHand, d.opponentHand)))
  {
    assert (deals + [d])[..|deals|] == deals;
  }

  /** Two lists without repeats and without a shared element join into one without repeats. */
  lemma DistinctJoin(a: seq<Card>, b: seq<Card>)
    requires PairwiseDistinct(a) && PairwiseDistinct(b)
    requires forall c :: c in b ==> c !in a
    ensures PairwiseDistinct(a + b)
  {
    var ab := a + b;
    forall i, j | 0 <= i < j < |ab| ensures ab[i] != ab[j] {
      if j >= |a| && i < |a| {
        assert ab[j] == b[j - |a|] && ab[i] == a[i];
        assert b[j - |a|] in b;
      }
    }
  }

  /**
   * `simulateBatch`: `iterations` times, copy the deck, draw the opponent's two
   * cards (skipping the iteration when fewer are left), complete the board and
   * score the two best hands. The precondition lets the deck's copy run short
   * only before the opponent's draw, never while the board is completed; the
   * in-between case cannot arise from `simulate`, which starts every batch with
   * at least 45 cards left.
   */
  method SimulateBatch(player: seq<Card>, community: seq<Card>, iterations: nat, deck: Deck)
    returns (result: BatchResult, ghost deals: seq<Deal>)
    requires deck.Valid() && |community| <= 5
    requires deck.RemainingCount() < 2 || deck.RemainingCount() >= 7 - |community|
    ensures |deals| <= iterations
    ensures deck.RemainingCount() >= 2 ==> |deals| == iterations
    ensures ValidDeals(deck.used, player, community, deals)
    ensures result == Score(Outcomes(deals))
  {
    var counts := BatchResult(0, 0, 0);
    deals := [];
    for k := 0 to iterations
      invariant |deals| <= k
      invariant deck.RemainingCount() >= 2 ==> |deals| == k
      invariant ValidDeals(deck.used, player, community, deals)
      invariant counts == Score(Outcomes(deals))
    {
      var workingDeck := deck.Copy();
      var opponentCards := workingDeck.DrawRandomCards(2);
      if |opponentCards| != 2 {
        continue;
      }
      var extra := workingDeck.DrawRandomCards(5 - |community|);
      var fullCommunity := community + extra;
      var playerHand := EvaluateHand(player + fullCommunity);
      var opponentHand := EvaluateHand(opponentCards + fullCommunity);
      counts := Record(counts, playerHand, opponentHand);
      ghost var d := Deal(opponentCards, extra, playerHand, opponentHand);
      assert ValidDeal(deck.used, player, community, d) by {
        DistinctJoin(opponentCards, extra);
      }
      ScoreStep(deals, d);
      assert (deals + [d])[..|deals|] == deals;
      deals := deals + [d];
    }
    result := counts;
  }

  /** `simulate`'s guards: two hole cards, at most five community cards, 5000 to 200000 iterations, no card twice. */
  predicate InputAccepted(player: seq<Card>, community: seq<Card>, iterations: int)
  {
    |player| == 2 && |community| <= 5
    && MinIterations <= iterations <= MaxPremiumIterations
    && NoDuplicates(player + community)
  }

  /** Batches needed for `iterations`: the division rounded up. */
  function TotalBatches(iterations: nat): nat
  {
    (iterations + BatchSize - 1) / BatchSize
  }

  /** The size of batch `b`: a full batch, or what is left for the last one. */
  function CurrentBatchSize(iterations: nat, b: nat): int
  {
    if BatchSize <= iterations - b * BatchSize then BatchSize else iterations - b * BatchSize
  }

  /** The batches just cover the iterations: all but the last are full, and the last is not empty. */
  lemma TotalBatchesCover(iterations: nat)
    ensures TotalBatches(iterations) * BatchSize >= iterations
    ensures iterations > 0 ==> (TotalBatches(iterations) - 1) * BatchSize < iterations
  {
    var n := TotalBatches(iterations);
    assert iterations + BatchSize - 1 == n * BatchSize + (iterations + BatchSize - 1) % BatchSize;
  }

  /** The iterations run by the first `k` batches. */
  function BatchesRun(iterations: nat, k: nat): int
  {
    if k == 0 then 0 else BatchesRun(iterations, k - 1) + CurrentBatchSize(iterations, k - 1)
  }

  /** Every batch has between 1 and 1000 iterations, and all of them together run exactly `iterations`. */
  lemma {:induction false} BatchesRunAll(iterations: nat, k: nat)
    requires k <= TotalBatches(iterations)
    ensures k < TotalBatches(iterations) ==> 1 <= CurrentBatchSize(iterations, k) <= BatchSize
    ensures BatchesRun(iterations, k) == if k * BatchSize <= iterations then k * BatchSize else iterations
  {
    TotalBatchesCover(iterations);
    if k > 0 {
      BatchesRunAll(iterations, k - 1);
    }
  }

  /** All the batches together run exactly the requested iterations, in at least one batch. */
  lemma BatchesRunTotal(iterations: nat)
    requires iterations > 0
    ensures TotalBatches(iterations) > 0
    ensures BatchesRun(iterations, TotalBatches(iterations)) == iterations
  {
    TotalBatchesCover(iterations);
    BatchesRunAll(iterations, TotalBatches(iterations));
  }

  /** The progress reported after batch `b` of `n`. */
  function Progress(b: nat, n: nat): real
    requires n > 0
  {
    (b + 1) as real / n as real
  }

  /** Progress rises strictly from batch to batch, stays within (0, 1] and reaches 1 after the last batch. */
  lemma ProgressRises(b: nat, c: nat, n: nat)
    requires b < c < n
    ensures 0.0 < Progress(b, n) < Progress(c, n) <= 1.0
    ensures Progress(n - 1, n) == 1.0
  {
    var r := n as real;
    assert Progress(b, n) * r == (b + 1) as real;
    assert Progress(c, n) * r == (c + 1) as real;
  }

  /** `reported` holds the progress values of the first batches of `n`, in order. */
  predicate ProgressReports(reported: seq<real>, n: nat)
  {
    n > 0 && |reported| <= n && forall i :: 0 <= i < |reported| ==> reported[i] == Progress(i, n)
  }

  lemma ProgressExtend(reported: seq<real>, n: nat)
    requires ProgressReports(reported, n) && |reported| < n
    ensures ProgressReports(reported + [Progress(|reported|, n)], n)
  {
  }

  /**
   * What the cancellation token reads when checked before batch `b`. A token
   * once cancelled stays cancelled, so a run is described by the first batch
   * whose check sees the cancellation, if any.
   */
  predicate CancelledBy(cancelAt: Option<nat>, b: nat)
  {
    cancelAt.Some? && cancelAt.value <= b
  }

  /** Adding a batch's counters and deals to the running ones keeps them in step. */
  lemma Accumulate(known: set<Card>, player: seq<Card>, community: seq<Card>, deals: seq<Deal>, batchDeals: seq<Deal>,
                   counts: BatchResult, batch: BatchResult)
    requires ValidDeals(known, player, community, deals) && ValidDeals(known, player, community, batchDeals)
    requires counts == Score(Outcomes(deals)) && batch == Score(Outcomes(batchDeals))
    ensures ValidDeals(known, player, community, deals + batchDeals)
    ensures Plus(counts, batch) == Score(Outcomes(deals + batchDeals))
  {
    OutcomesAppend(deals, batchDeals);
    ValidDealsAppend(known, player, community, deals, batchDeals);
    ScoreAppend(Outcomes(deals), Outcomes(batchDeals));
  }

  /**
   * Batch `batchIndex` of `simulate`: its size, `simulateBatch` on a copy of
   * the deck, and its counters added to the running ones. `deals` are the
   * deals of the earlier batches.
   */
  method RunBatch(player: seq<Card>, community: seq<Card>, iterations: nat, batchIndex: nat, deck: Deck,
                  counts: BatchResult, ghost deals: seq<Deal>)
    returns (next: BatchResult, ghost nextDeals: seq<Deal>)
    requires deck.Valid() && deck.RemainingCount() >= 7 && |community| <= 5
    requires batchIndex < TotalBatches(iterations) && |deals| == BatchesRun(iterations, batchIndex)
    requires ValidDeals(deck.used, player, community, deals) && counts == Score(Outcomes(deals))
    ensures |nextDeals| == BatchesRun(iterations, batchIndex + 1)
    ensures ValidDeals(deck.used, player, community, nextDeals)
    ensures next == Score(Outcomes(nextDeals))
  {
    ghost var known := deck.used;
    BatchesRunAll(iterations, batchIndex);
    var currentBatchSize := CurrentBatchSize(iterations, batchIndex);
    var batchDeck := deck.Copy();
    assert batchDeck.used == known;
    var batch, batchDeals := SimulateBatch(player, community, currentBatchSize, batchDeck);
    assert |batchDeals| == currentBatchSize && ValidDeals(known, player, community, batchDeals);
    Accumulate(known, player, community, deals, batchDeals, counts, batch);
    next := Plus(counts, batch);
    nextDeals := deals + batchDeals;
  }

  /** The progress report after batch `|reported|` of `n`: the fraction of batches done. */
  method ReportProgress(reported: seq<real>, n: nat) returns (next: seq<real>)
    requires ProgressReports(reported, n) && |reported| < n
    ensures next == reported + [Progress(|reported|, n)]
    ensures ProgressReports(next, n)
  {
    ProgressExtend(reported, n);
    next := reported + [Progress(|reported|, n)];
  }

  /**
   * The batch loop of `simulate` over a deck with the known cards marked
   * used: before each batch the cancellation token is read, and a cancelled
   * run stops there; after each batch its counters are added and progress is
   * reported.
   */
  method RunBatches(player: seq<Card>, community: seq<Card>, iterations: nat, cancelAt: Option<nat>, deck: Deck)
    returns (counts: BatchResult, cancelled: bool, progress: seq<real>, ghost deals: seq<Deal>)
    requires deck.Valid() && deck.RemainingCount() >= 7 && |community| <= 5 && iterations > 0
    ensures ProgressReports(progress, TotalBatches(iterations))
    ensures cancelled <==> CancelledBy(cancelAt, TotalBatches(iterations) - 1)
    ensures cancelled ==> cancelAt == Some(|progress|)
    ensures !cancelled ==> |progress| == TotalBatches(iterations) && |deals| == iterations
    ensures counts.wins + counts.ties + counts.losses == |deals|
    ensures ValidDeals(deck.used, player, community, deals)
    ensures counts == Score(Outcomes(deals))
  {
    counts := BatchResult(0, 0, 0);
    progress := [];
    deals := [];
    var totalBatches := TotalBatches(iterations);
    BatchesRunTotal(iterations);
    var batchIndex := 0;
    cancelled := false;
    while batchIndex < totalBatches && !cancelled
      invariant batchIndex <= totalBatches && |progress| == batchIndex
      invariant ProgressReports(progress, totalBatches)
      invariant cancelAt.None? || cancelAt.value >= batchIndex
      invariant cancelled ==> cancelAt == Some(batchIndex) && batchIndex < totalBatches
      invariant |deals| == BatchesRun(iterations, batchIndex)
      invariant ValidDeals(deck.used, player, community, deals)
      invariant counts == Score(Outcomes(deals))
      decreases totalBatches - batchIndex, if cancelled then 0 else 1
    {
      if CancelledBy(cancelAt, batchIndex) {
        cancelled := true;
        continue;
      }
      counts, deals := RunBatch(player, community, iterations, batchIndex, deck, counts, deals);
      progress := ReportProgress(progress, totalBatches);
      batchIndex := batchIndex + 1;
    }
  }

  /**
   * `simulate`. `cancelAt` is the first batch before which the cancellation
   * token reads cancelled; `progress` holds the reported progress values in
   * order; `deals` are the random cards and evaluations of every scored
   * iteration.
   */
  method Simulate(player: seq<Card>, community: seq<Card>, iterations: int, cancelAt: Option<nat>)
    returns (result: Option<SimulationResult>, progress: seq<real>, ghost deals: seq<Deal>)
    ensures !InputAccepted(player, community, iterations) ==> result.None? && progress == []
    ensures InputAccepted(player, community, iterations) ==>
      var n := TotalBatches(iterations);
      && ProgressReports(progress, n)
      && (result.Some? <==> !CancelledBy(cancelAt, n - 1))
      && (result.Some? ==> |progress| == n)
      && (result.None? ==> cancelAt == Some(|progress|))
    ensures result.Some? ==>
      var r := result.value;
      && r.totalSimulations == iterations == |deals|
      && r.wins + r.ties + r.losses == r.totalSimulations
      && ValidDeals(ToSet(player + community), player, community, deals)
      && BatchResult(r.wins, r.ties, r.losses) == Score(Outcomes(deals))
  {
    if !InputAccepted(player, community, iterations) {
      return None, [], [];
    }
    var deck := new Deck();
    deck.MarkAllAsUsed(player + community);
    var counts, cancelled;
    counts, cancelled, progress, deals := RunBatches(player, community, iterations, cancelAt, deck);
    if cancelled {
      return None, progress, deals;
    }
    result := Some(SimulationResult(counts.wins, counts.ties, counts.losses, counts.wins + counts.ties + counts.losses));
  }

  /** `simulateSync`: `simulate` with no cancellation token and no progress callback. */
  method SimulateSync(player: seq<Card>, community: seq<Card>, iterations: int)
    returns (result: Option<SimulationResult>)
    ensures result.Some? <==> InputAccepted(player, community, iterations)
    ensures result.Some? ==> result.value.totalSimulations == iterations
    ensures result.Some? ==> result.value.wins + result.value.ties + result.value.losses == iterations
  {
    var progress;
    ghost var deals;
    result, progress, deals := Simulate(player, community, iterations, None);
  }

  /** `estimatedDuration`: seconds at 50000 iterations per second. */
  function EstimatedDuration(iterations: int): (seconds: real)
    ensures seconds * IterationsPerSecond == iterations as real
  {
    iterations as real / IterationsPerSecond
  }

  /** More iterations never take less time. */
  lemma EstimatedDurationMonotone(a: int, b: int)
    requires a <= b
    ensures EstimatedDuration(a) <= EstimatedDuration(b)
  {
  }

  /** What `validateConfiguration` reports, in the order it checks. */
  datatype ConfigError = WrongHoleCardCount | TooManyCommunityCards | TooFewIterations
                       | TooManyIterations | DuplicateCards

  /** `validateConfiguration`: the first failed check, none when the configuration is valid. */
  function ValidateConfiguration(player: seq<Card>, community: seq<Card>, iterations: int): (r: Option<ConfigError>)
  {
    if |player| != 2 then Some(WrongHoleCardCount)
    else if |community| > 5 then Some(TooManyCommunityCards)
    else if iterations < MinIterations then Some(TooFewIterations)
    else if iterations > MaxValidatedIterations then Some(TooManyIterations)
    else if !NoDuplicates(player + community) then Some(DuplicateCards)
    else None
  }

  /**
   * A configuration passes exactly when the hole cards, board size, iteration
   * count and distinctness checks all pass; a duplicate is reported only for
   * an otherwise valid configuration, and then two positions hold the same card.
   */
  lemma ValidateConfigurationIff(player: seq<Card>, community: seq<Card>, iterations: int)
    ensures ValidateConfiguration(player, community, iterations).None? <==>
      |player| == 2 && |community| <= 5 && MinIterations <= iterations <= MaxValidatedIterations
      && PairwiseDistinct(player + community)
    ensures ValidateConfiguration(player, community, iterations) == Some(DuplicateCards) <==>
      |player| == 2 && |community| <= 5 && MinIterations <= iterations <= MaxValidatedIterations
      && exists i, j :: 0 <= i < j < |player + community| && (player + community)[i] == (player + community)[j]
  {
    NoDuplicatesIff(player + community);
  }

  /** A validated configuration is one `simulate` runs. */
  lemma ValidatedIsAccepted(player: seq<Card>, community: seq<Card>, iterations: int)
    requires ValidateConfiguration(player, community, iterations).None?
    ensures InputAccepted(player, community, iterations)
  {
  }

  /** `simulate` accepts up to 200000 iterations, twice what `validateConfiguration` lets through. */
  lemma SimulateAcceptsMoreThanValidated()
    ensures var player := [Card(Spades, Ace), Card(Hearts, Ace)];
      InputAccepted(player, [], 150000)
      && ValidateConfiguration(player, [], 150000) == Some(TooManyIterations)
  {
    var player := [Card(Spades, Ace), Card(Hearts, Ace)];
    assert player + [] == player;
    assert ToSet(player) == {Card(Spades, Ace), Card(Hearts, Ace)};
    assert |{Card(Spades, Ace), Card(Hearts, Ace)}| == 2;
  }

  /** `CancellationToken`: a flag that, once set, stays set. */
  class CancellationToken {
    var cancelled: bool

    constructor ()
      ensures !cancelled
    {
      cancelled := false;
    }

    predicate IsCancelled()
      reads this
    {
      cancelled
    }

    method Cancel()
      modifies this
      ensures IsCancelled()
    {
      cancelled := true;
    }
  }
}
