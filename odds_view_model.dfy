/**
 * The card-slot logic of `OddsViewModel`: two hole-card slots and five board
 * slots that the screen fills one card at a time, the iteration setting, and
 * the simulation state shown to the user.
 */
module OddsViewModels {
  import opened Wrappers
  import opened Cards
  import opened Sequences
  import MonteCarlo

  /** `SimulationState`. */
  datatype SimulationState = Idle | Running | Completed | Cancelled | Error(message: string)

  /** The hand-written `==` on `SimulationState`: the same case, and the same message for two errors. */
  function StatesEqual(lhs: SimulationState, rhs: SimulationState): (r: bool)
    ensures r <==> lhs == rhs
  {
    match (lhs, rhs)
    case (Idle, Idle) => true
    case (Running, Running) => true
    case (Completed, Completed) => true
    case (Cancelled, Cancelled) => true
    case (Error(a), Error(b)) => a == b
    case _ => false
  }

  /** `CardPosition`: a hole-card slot or a board slot, by index. */
  datatype CardPosition = PlayerCard(index: int) | CommunityCard(index: int)

  const PlayerSlots: nat := 2
  const CommunitySlots: nat := 5
  /** `iterationsCount` when fast mode is off, and at start-up. */
  const DefaultIterations: int := 20000
  /** `iterationsCount` when fast mode is on. */
  const FastModeIterations: int := 8000
  /** The ceiling on iterations outside high-precision mode. */
  const StandardMaxIterations: int := 100000

  /** The iteration ceiling of `updateIterations` and `validateConfiguration`. */
  function MaxIterations(highPrecision: bool): int
  {
    if highPrecision then MonteCarlo.MaxPremiumIterations else StandardMaxIterations
  }

  /**
   * The standard ceiling is the one the engine's `validateConfiguration`
   * enforces, and the premium one is `simulate`'s; both lie above the minimum.
   */
  lemma MaxIterationsBounds(highPrecision: bool)
    ensures MonteCarlo.MinIterations < MaxIterations(highPrecision) <= MonteCarlo.MaxPremiumIterations
    ensures !highPrecision ==> MaxIterations(highPrecision) == MonteCarlo.MaxValidatedIterations
    ensures highPrecision ==> MaxIterations(highPrecision) == MonteCarlo.MaxPremiumIterations
  {
  }

  /** `max(5000, min(maxIterations, newValue))`. */
  function ClampIterations(newValue: int, highPrecision: bool): (n: int)
    ensures MonteCarlo.MinIterations <= n <= MaxIterations(highPrecision)
    ensures MonteCarlo.MinIterations <= newValue <= MaxIterations(highPrecision) ==> n == newValue
    ensures newValue < MonteCarlo.MinIterations ==> n == MonteCarlo.MinIterations
    ensures newValue > MaxIterations(highPrecision) ==> n == MaxIterations(highPrecision)
  {
    var capped := if newValue < MaxIterations(highPrecision) then newValue else MaxIterations(highPrecision);
    if capped > MonteCarlo.MinIterations then capped else MonteCarlo.MinIterations
  }

  /** The two slot arrays `playerCards` and `communityCards`. */
  datatype Slots = Slots(player: seq<Option<Card>>, community: seq<Option<Card>>)

  /** `allSelectedCards`: the filled hole-card slots, then the filled board slots. */
  function SelectedCards(s: Slots): seq<Card>
  {
    CompactMap(s.player) + CompactMap(s.community)
  }

  /** `hasCardDuplicates`: the set of selected cards is smaller than the list. */
  predicate HasDuplicates(s: Slots)
  {
    !NoDuplicates(SelectedCards(s))
  }

  /** `canRunSimulation`: a complete hand, no run in progress, and no card selected twice. */
  function CanRun(s: Slots, state: SimulationState): (r: bool)
    ensures r <==> |CompactMap(s.player)| == 2 && !state.Running? && PairwiseDistinct(SelectedCards(s))
  {
    NoDuplicatesIff(SelectedCards(s));
    |CompactMap(s.player)| == 2 && !state.Running? && !HasDuplicates(s)
  }

  /** Whether `position` addresses an existing slot. */
  predicate InRange(s: Slots, position: CardPosition)
  {
    match position
    case PlayerCard(i) => 0 <= i < |s.player|
    case CommunityCard(i) => 0 <= i < |s.community|
  }

  /** The card in the slot `position` addresses, none when it is empty or out of range. */
  function Occupant(s: Slots, position: CardPosition): Option<Card>
  {
    match position
    case PlayerCard(i) => if 0 <= i < |s.player| then s.player[i] else None
    case CommunityCard(i) => if 0 <= i < |s.community| then s.community[i] else None
  }

  /**
   * The slot write of `selectCard` and `removeCard`: the addressed slot gets
   * `value` when the index is below the array's length, and no slot changes
   * otherwise. A negative index traps in the source.
   */
  function Put(s: Slots, position: CardPosition, value: Option<Card>): (r: Slots)
    requires position.index >= 0
    ensures |r.player| == |s.player| && |r.community| == |s.community|
    ensures forall k :: 0 <= k < |s.player| ==>
      r.player[k] == if position == PlayerCard(k) then value else s.player[k]
    ensures forall k :: 0 <= k < |s.community| ==>
      r.community[k] == if position == CommunityCard(k) then value else s.community[k]
  {
    match position
    case PlayerCard(i) =>
      if i < |s.player| then Slots(s.player[i := value], s.community) else s
    case CommunityCard(i) =>
      if i < |s.community| then Slots(s.player, s.community[i := value]) else s
  }

  /** Adding the same cards to both sides of a multiset equation. */
  lemma AddToBoth(a: multiset<Card>, b: multiset<Card>, c: multiset<Card>, o: multiset<Card>, v: multiset<Card>)
    requires a + o == b + v
    ensures a + c + o == b + c + v
  {
    forall e ensures (a + c + o)[e] == (b + c + v)[e] {
      assert (a + o)[e] == (b + v)[e];
    }
  }

  /** A slot write swaps the occupant's card for the new one in the selection and leaves the rest. */
  lemma PutSelection(s: Slots, position: CardPosition, value: Option<Card>)
    requires position.index >= 0
    ensures multiset(SelectedCards(Put(s, position, value))) + OptionMultiset(Occupant(s, position))
         == multiset(SelectedCards(s)) + (if InRange(s, position) then OptionMultiset(value) else multiset{})
  {
    var i := position.index;
    if position.PlayerCard? && i < |s.player| {
      var p' := s.player[i := value];
      assert Put(s, position, value) == Slots(p', s.community);
      CompactMapUpdate(s.player, i, value);
      AddToBoth(multiset(CompactMap(p')), multiset(CompactMap(s.player)), multiset(CompactMap(s.community)),
                OptionMultiset(s.player[i]), OptionMultiset(value));
    } else if position.CommunityCard? && i < |s.community| {
      var c' := s.community[i := value];
      assert Put(s, position, value) == Slots(s.player, c');
      CompactMapUpdate(s.community, i, value);
      AddToBoth(multiset(CompactMap(c')), multiset(CompactMap(s.community)), multiset(CompactMap(s.player)),
                OptionMultiset(s.community[i]), OptionMultiset(value));
      assert multiset(SelectedCards(Slots(s.player, c'))) == multiset(CompactMap(c')) + multiset(CompactMap(s.player));
    }
  }

  /** The card in an addressed slot is among the selected cards. */
  lemma OccupantSelected(s: Slots, position: CardPosition)
    requires Occupant(s, position).Some?
    ensures Occupant(s, position).value in SelectedCards(s)
  {
    CompactMapMembers(s.player);
    CompactMapMembers(s.community);
  }

  /** `selectCard`'s write of a card not yet selected selects it exactly when the index is in range. */
  lemma {:induction false} SelectAddsCard(s: Slots, position: CardPosition, card: Card)
    requires position.index >= 0
    requires card !in SelectedCards(s)
    ensures card in SelectedCards(Put(s, position, Some(card))) <==> InRange(s, position)
  {
    var m, m' := multiset(SelectedCards(s)), multiset(SelectedCards(Put(s, position, Some(card))));
    var gone := OptionMultiset(Occupant(s, position));
    PutSelection(s, position, Some(card));
    if Occupant(s, position).Some? {
      OccupantSelected(s, position);
    }
    assert (m' + gone)[card] == (m + (if InRange(s, position) then multiset{card} else multiset{}))[card];
  }

  /** `selectCard`'s write of a card not yet selected keeps every selected card distinct. */
  lemma {:induction false} SelectKeepsDistinct(s: Slots, position: CardPosition, card: Card)
    requires position.index >= 0
    requires card !in SelectedCards(s) && PairwiseDistinct(SelectedCards(s))
    ensures PairwiseDistinct(SelectedCards(Put(s, position, Some(card))))
  {
    var after := SelectedCards(Put(s, position, Some(card)));
    var m, m' := multiset(SelectedCards(s)), multiset(after);
    var gone := OptionMultiset(Occupant(s, position));
    var added := if InRange(s, position) then multiset{card} else multiset{};
    PutSelection(s, position, Some(card));
    DistinctIffAtMostOnce(SelectedCards(s));
    DistinctIffAtMostOnce(after);
    assert m[card] == 0;
    forall x ensures m'[x] <= 1 {
      assert (m' + gone)[x] == (m + added)[x];
    }
  }

  /**
   * `removeCard`'s write keeps every selected card distinct, and the card it
   * took out of the slot is no longer selected.
   */
  lemma {:induction false} RemoveKeepsDistinct(s: Slots, position: CardPosition)
    requires position.index >= 0
    requires PairwiseDistinct(SelectedCards(s))
    ensures PairwiseDistinct(SelectedCards(Put(s, position, None)))
    ensures Occupant(s, position).Some? ==> Occupant(s, position).value !in SelectedCards(Put(s, position, None))
  {
    var after := SelectedCards(Put(s, position, None));
    var m, m' := multiset(SelectedCards(s)), multiset(after);
    var gone := OptionMultiset(Occupant(s, position));
    PutSelection(s, position, None);
    DistinctIffAtMostOnce(SelectedCards(s));
    DistinctIffAtMostOnce(after);
    assert m' + gone == m;
    forall x ensures m'[x] <= 1 {
      assert (m' + gone)[x] == m[x];
    }
    if Occupant(s, position).Some? {
      var c := Occupant(s, position).value;
      assert (m' + gone)[c] == m[c];
      assert m'[c] == 0;
    }
  }

  /** What `validateConfiguration` reports; the localised message text is left out. */
  datatype ConfigurationProblem = HandIncomplete | DuplicateCards | TooFewIterations | TooManyIterations(maximum: int)

  /** The view model's `validateConfiguration`: the first failed check, none when all pass. */
  function Validate(s: Slots, iterations: int, highPrecision: bool): Option<ConfigurationProblem>
  {
    if |CompactMap(s.player)| != 2 then Some(HandIncomplete)
    else if HasDuplicates(s) then Some(DuplicateCards)
    else if iterations < MonteCarlo.MinIterations then Some(TooFewIterations)
    else if iterations > MaxIterations(highPrecision) then Some(TooManyIterations(MaxIterations(highPrecision)))
    else None
  }

  /**
   * The checks come in the order hand, duplicates, lower bound, upper bound:
   * each problem is reported exactly when every earlier check passes and its
   * own fails, and nothing is reported exactly when all four pass.
   */
  lemma ValidateInOrder(s: Slots, iterations: int, highPrecision: bool)
    ensures var r := Validate(s, iterations, highPrecision);
      var hand := |CompactMap(s.player)| == 2;
      var distinct := PairwiseDistinct(SelectedCards(s));
      && (r == Some(HandIncomplete) <==> !hand)
      && (r == Some(DuplicateCards) <==> hand && !distinct)
      && (r == Some(TooFewIterations) <==> hand && distinct && iterations < MonteCarlo.MinIterations)
      && (r == Some(TooManyIterations(MaxIterations(highPrecision))) <==>
            hand && distinct && MonteCarlo.MinIterations <= iterations && iterations > MaxIterations(highPrecision))
      && (r.None? <==> hand && distinct && MonteCarlo.MinIterations <= iterations <= MaxIterations(highPrecision))
  {
    NoDuplicatesIff(SelectedCards(s));
  }

  /**
   * `canRunSimulation` and `validateConfiguration` agree on the cards: a
   * configuration that validates can run unless a run is in progress, and one
   * that can run fails validation only on the iteration count.
   */
  lemma CanRunMatchesValidate(s: Slots, state: SimulationState, iterations: int, highPrecision: bool)
    ensures Validate(s, iterations, highPrecision).None? && !state.Running? ==> CanRun(s, state)
    ensures CanRun(s, state) ==>
      (|| Validate(s, iterations, highPrecision).None?
       || Validate(s, iterations, highPrecision) == Some(TooFewIterations)
       || Validate(s, iterations, highPrecision) == Some(TooManyIterations(MaxIterations(highPrecision))))
  {
    NoDuplicatesIff(SelectedCards(s));
  }

  /** A run the view model lets start passes every input check of `simulate`. */
  lemma CanRunIsAccepted(s: Slots, state: SimulationState, iterations: int)
    requires |s.community| == CommunitySlots
    requires MonteCarlo.MinIterations <= iterations <= MonteCarlo.MaxPremiumIterations
    requires CanRun(s, state)
    ensures MonteCarlo.InputAccepted(CompactMap(s.player), CompactMap(s.community), iterations)
  {
    NoDuplicatesIff(SelectedCards(s));
  }

  /** `errorMessage`'s possible contents, without their localised text. */
  datatype Message = CardAlreadySelected | Invalid(problem: ConfigurationProblem)

  /** `errorMessage = validateConfiguration()`: no message when the configuration is valid. */
  function Report(problem: Option<ConfigurationProblem>): Option<Message>
  {
    if problem.Some? then Some(Invalid(problem.value)) else None
  }

  /** A verdict becomes a message exactly when there is a problem, and never the duplicate-pick message. */
  lemma ReportIff(problem: Option<ConfigurationProblem>)
    ensures Report(problem).None? <==> problem.None?
    ensures problem.Some? ==> Report(problem) == Some(Invalid(problem.value))
    ensures Report(problem) != Some(CardAlreadySelected)
  {
  }

  /** The message `performSimulation` shows when `simulate` returns no result uncancelled. */
  const SimulationFailed: string := "Simulation failed"

  /**
   * The engine call of `performSimulation`, on input that passes its checks:
   * no result exactly when a batch saw the token cancelled, and otherwise a
   * result with an outcome for every iteration.
   */
  method Simulate(player: seq<Card>, community: seq<Card>, iterations: int, cancelAt: Option<nat>)
    returns (result: Option<MonteCarlo.SimulationResult>, progress: seq<real>)
    requires MonteCarlo.InputAccepted(player, community, iterations)
    ensures MonteCarlo.ProgressReports(progress, MonteCarlo.TotalBatches(iterations))
    ensures result.Some? <==> !MonteCarlo.CancelledBy(cancelAt, MonteCarlo.TotalBatches(iterations) - 1)
    ensures result.Some? ==>
      && |progress| == MonteCarlo.TotalBatches(iterations)
      && result.value.totalSimulations == iterations
      && result.value.wins + result.value.ties + result.value.losses == iterations
  {
    ghost var deals;
    result, progress, deals := MonteCarlo.Simulate(player, community, iterations, cancelAt);
  }

  /** `OddsViewModel`, the fields its slot and simulation logic reads and writes. */
  class OddsViewModel {
    var playerCards: seq<Option<Card>>
    var communityCards: seq<Option<Card>>
    var simulationState: SimulationState
    var simulationResult: Option<MonteCarlo.SimulationResult>
    var simulationProgress: real
    var iterationsCount: int
    var fastMode: bool
    var errorMessage: Option<Message>
    var showingCardPicker: bool
    var isHighPrecisionModeActive: bool
    var cancellationToken: MonteCarlo.CancellationToken?

    /** Two hole-card slots, five board slots, and an iteration count `simulate` accepts. */
    ghost predicate Valid()
      reads this
    {
      && |playerCards| == PlayerSlots && |communityCards| == CommunitySlots
      && MonteCarlo.MinIterations <= iterationsCount <= MonteCarlo.MaxPremiumIterations
    }

    constructor ()
      ensures Valid()
      ensures playerCards == [None, None] && communityCards == [None, None, None, None, None]
      ensures simulationState == Idle && simulationResult.None? && simulationProgress == 0.0
      ensures iterationsCount == DefaultIterations && !fastMode && errorMessage.None?
      ensures !showingCardPicker && !isHighPrecisionModeActive && cancellationToken == null
    {
      playerCards := [None, None];
      communityCards := [None, None, None, None, None];
      simulationState := Idle;
      simulationResult := None;
      simulationProgress := 0.0;
      iterationsCount := DefaultIterations;
      fastMode := false;
      errorMessage := None;
      showingCardPicker := false;
      isHighPrecisionModeActive := false;
      cancellationToken := null;
    }

    function CardSlots(): Slots
      reads this
    {
      Slots(playerCards, communityCards)
    }

    /** `validPlayerCards`. */
    function ValidPlayerCards(): seq<Card>
      reads this
    {
      CompactMap(playerCards)
    }

    /** `validCommunityCards`. */
    function ValidCommunityCards(): seq<Card>
      reads this
    {
      CompactMap(communityCards)
    }

    /** `allSelectedCards`. */
    function AllSelectedCards(): seq<Card>
      reads this
    {
      SelectedCards(CardSlots())
    }

    /** `hasCardDuplicates`. */
    predicate HasCardDuplicates()
      reads this
    {
      HasDuplicates(CardSlots())
    }

    /** `canRunSimulation`. */
    predicate CanRunSimulation()
      reads this
    {
      CanRun(CardSlots(), simulationState)
    }

    /** The private `validateConfiguration`. */
    function ValidateConfiguration(): Option<ConfigurationProblem>
      reads this
    {
      Validate(CardSlots(), iterationsCount, isHighPrecisionModeActive)
    }

    /**
     * The computed properties agree with each other: the selected cards are
     * the filled hole cards then the filled board cards, duplicates mean two
     * positions holding one card, a run may start exactly on a complete hand
     * with no run in progress and no duplicate, and a configuration that
     * validates has a complete hand with no duplicate.
     */
    lemma ComputedProperties()
      ensures AllSelectedCards() == ValidPlayerCards() + ValidCommunityCards()
      ensures HasCardDuplicates() <==> !PairwiseDistinct(AllSelectedCards())
      ensures CanRunSimulation() <==>
        |ValidPlayerCards()| == 2 && !simulationState.Running? && !HasCardDuplicates()
      ensures ValidateConfiguration().None? ==> |ValidPlayerCards()| == 2 && !HasCardDuplicates()
    {
      NoDuplicatesIff(AllSelectedCards());
      ValidateInOrder(CardSlots(), iterationsCount, isHighPrecisionModeActive);
    }

    /** Setting `fastMode` runs its `didSet`, which resets the iteration count. */
    method SetFastMode(on: bool)
      requires Valid()
      modifies this`fastMode, this`iterationsCount
      ensures Valid()
      ensures fastMode == on
      ensures iterationsCount == if on then FastModeIterations else DefaultIterations
    {
      fastMode := on;
      iterationsCount := if fastMode then FastModeIterations else DefaultIterations;
    }

    /** `activateHighPrecisionMode`, without its expiry timer. */
    method ActivateHighPrecisionMode()
      requires Valid()
      modifies this`isHighPrecisionModeActive, this`iterationsCount
      ensures Valid() && isHighPrecisionModeActive
      ensures iterationsCount == if fastMode then old(iterationsCount) else MonteCarlo.MaxPremiumIterations
    {
      isHighPrecisionModeActive := true;
      if !fastMode {
        iterationsCount := MonteCarlo.MaxPremiumIterations;
      }
    }

    /**
     * `deactivateHighPrecisionMode`, without its timer: outside fast mode the
     * iteration count drops back under the standard ceiling.
     */
    method DeactivateHighPrecisionMode()
      requires Valid()
      modifies this`isHighPrecisionModeActive, this`iterationsCount
      ensures Valid() && !isHighPrecisionModeActive
      ensures !fastMode ==> iterationsCount == if old(iterationsCount) > StandardMaxIterations
                                                then StandardMaxIterations else old(iterationsCount)
      ensures fastMode ==> iterationsCount == old(iterationsCount)
    {
      isHighPrecisionModeActive := false;
      if !fastMode && iterationsCount > StandardMaxIterations {
        iterationsCount := StandardMaxIterations;
      }
    }

    /** `updateIterations`: the requested count, clamped to the mode's range. */
    method UpdateIterations(newValue: int)
      requires Valid()
      modifies this`iterationsCount
      ensures Valid()
      ensures iterationsCount == ClampIterations(newValue, isHighPrecisionModeActive)
    {
      var maxIterations := MaxIterations(isHighPrecisionModeActive);
      var capped := if maxIterations < newValue then maxIterations else newValue;
      iterationsCount := if MonteCarlo.MinIterations < capped then capped else MonteCarlo.MinIterations;
    }

    /** `cancelSimulation`: signals the running simulation and shows the cancelled state. */
    method CancelSimulation()
      requires Valid()
      modifies this`simulationState, this`simulationProgress, cancellationToken
      ensures Valid()
      ensures simulationState == Cancelled && simulationProgress == 0.0
      ensures cancellationToken != null ==> cancellationToken.IsCancelled()
    {
      if cancellationToken != null {
        cancellationToken.Cancel();
      }
      simulationState := Cancelled;
      simulationProgress := 0.0;
    }

    /** `clearAllCards`: every slot empty, no result, idle, no message. */
    method ClearAllCards()
      requires Valid()
      modifies this`playerCards, this`communityCards, this`simulationResult, this`simulationState,
               this`simulationProgress, this`errorMessage
      ensures Valid()
      ensures playerCards == [None, None] && communityCards == [None, None, None, None, None]
      ensures simulationResult.None? && simulationState == Idle && simulationProgress == 0.0
      ensures errorMessage.None?
      ensures AllSelectedCards() == []
    {
      playerCards := [None, None];
      communityCards := [None, None, None, None, None];
      simulationResult := None;
      simulationState := Idle;
      simulationProgress := 0.0;
      errorMessage := None;
    }

    /**
     * `removeCard`: empties the addressed slot when the index is in range;
     * a stored result is dropped and the state goes back to idle.
     */
    method RemoveCard(position: CardPosition)
      requires Valid() && position.index >= 0
      modifies this`playerCards, this`communityCards, this`simulationResult, this`simulationState
      ensures Valid()
      ensures CardSlots() == Put(old(CardSlots()), position, None)
      ensures old(simulationResult).Some? ==> simulationResult.None? && simulationState == Idle
      ensures old(simulationResult).None? ==> simulationResult.None? && simulationState == old(simulationState)
      ensures !old(HasCardDuplicates()) ==> !HasCardDuplicates()
    {
      ghost var before := CardSlots();
      match position {
        case PlayerCard(index) =>
          if index < |playerCards| {
            playerCards := playerCards[index := None];
          }
        case CommunityCard(index) =>
          if index < |communityCards| {
            communityCards := communityCards[index := None];
          }
      }
      if simulationResult.Some? {
        simulationResult := None;
        simulationState := Idle;
      }
      NoDuplicatesIff(SelectedCards(before));
      NoDuplicatesIff(AllSelectedCards());
      if !HasDuplicates(before) {
        RemoveKeepsDistinct(before, position);
      }
    }

    /**
     * `selectCard`: a card already selected is refused with a message and
     * changes nothing else; otherwise the addressed slot takes the card, a
     * stored result is dropped, the message is cleared and the picker closes.
     * A negative index traps in the source once the card has passed the check.
     */
    method SelectCard(card: Card, position: CardPosition)
      requires Valid() && (card in AllSelectedCards() || position.index >= 0)
      modifies this`playerCards, this`communityCards, this`simulationResult, this`simulationState,
               this`errorMessage, this`showingCardPicker
      ensures Valid()
      ensures card in old(AllSelectedCards()) ==>
        && errorMessage == Some(CardAlreadySelected)
        && CardSlots() == old(CardSlots())
        && simulationResult == old(simulationResult) && simulationState == old(simulationState)
        && showingCardPicker == old(showingCardPicker)
      ensures card !in old(AllSelectedCards()) ==>
        && CardSlots() == Put(old(CardSlots()), position, Some(card))
        && (card in AllSelectedCards() <==> InRange(old(CardSlots()), position))
        && errorMessage.None? && !showingCardPicker
        && (old(simulationResult).Some? ==> simulationResult.None? && simulationState == Idle)
        && (old(simulationResult).None? ==> simulationResult.None? && simulationState == old(simulationState))
      ensures !old(HasCardDuplicates()) ==> !HasCardDuplicates()
    {
      if card in AllSelectedCards() {
        errorMessage := Some(CardAlreadySelected);
        return;
      }
      ghost var before := CardSlots();
      match position {
        case PlayerCard(index) =>
          if index < |playerCards| {
            playerCards := playerCards[index := Some(card)];
          }
        case CommunityCard(index) =>
          if index < |communityCards| {
            communityCards := communityCards[index := Some(card)];
          }
      }
      if simulationResult.Some? {
        simulationResult := None;
        simulationState := Idle;
      }
      errorMessage := None;
      showingCardPicker := false;
      NoDuplicatesIff(SelectedCards(before));
      NoDuplicatesIff(AllSelectedCards());
      SelectAddsCard(before, position, card);
      if !HasDuplicates(before) {
        SelectKeepsDistinct(before, position, card);
      }
    }

    /**
     * `runSimulation`: a configuration that cannot run leaves the state as it
     * is and shows `validateConfiguration`'s verdict; one that can run is
     * simulated. `cancelAt` and `progress` are as in `PerformSimulation`.
     */
    method RunSimulation(cancelAt: Option<nat>) returns (progress: seq<real>)
      requires Valid()
      modifies this`errorMessage, this`simulationState, this`simulationResult, this`simulationProgress,
               this`cancellationToken
      ensures Valid()
      ensures !old(CanRunSimulation()) ==>
        && errorMessage == Report(old(ValidateConfiguration()))
        && simulationState == old(simulationState) && simulationResult == old(simulationResult)
        && simulationProgress == old(simulationProgress) && cancellationToken == old(cancellationToken)
        && progress == []
      ensures old(CanRunSimulation()) ==> errorMessage == old(errorMessage) && Ran(cancelAt, progress, old(simulationResult))
    {
      if !CanRunSimulation() {
        errorMessage := Report(ValidateConfiguration());
        return [];
      }
      progress := PerformSimulation(cancelAt);
    }

    /**
     * What a run leaves behind: progress back at zero, no token, and either
     * a completed state with a result for every iteration, or a cancelled
     * state that keeps the earlier result. The run completes exactly when no
     * batch saw the token cancelled.
     */
    ghost predicate Ran(cancelAt: Option<nat>, progress: seq<real>, earlier: Option<MonteCarlo.SimulationResult>)
      reads this
      requires Valid()
    {
      var batches := MonteCarlo.TotalBatches(iterationsCount);
      && simulationProgress == 0.0 && cancellationToken == null
      && MonteCarlo.ProgressReports(progress, batches)
      && (simulationState == Completed || simulationState == Cancelled)
      && (simulationState == Completed <==> !MonteCarlo.CancelledBy(cancelAt, batches - 1))
      && (simulationState == Cancelled ==> simulationResult == earlier)
      && (simulationState == Completed ==>
            && |progress| == batches
            && simulationResult.Some?
            && simulationResult.value.totalSimulations == iterationsCount
            && simulationResult.value.wins + simulationResult.value.ties + simulationResult.value.losses
               == iterationsCount)
    }

    /**
     * `performSimulation`. `cancelAt` is the first batch before which the
     * run's cancellation token reads cancelled; `progress` holds the values
     * the progress callback stores, in order, before the field returns to zero.
     */
    method PerformSimulation(cancelAt: Option<nat>) returns (progress: seq<real>)
      requires Valid() && CanRunSimulation()
      modifies this`simulationState, this`simulationResult, this`simulationProgress, this`cancellationToken
      ensures Valid()
      ensures Ran(cancelAt, progress, old(simulationResult))
    {
      CanRunIsAccepted(CardSlots(), simulationState, iterationsCount);
      simulationState := Running;
      simulationProgress := 0.0;
      cancellationToken := new MonteCarlo.CancellationToken();
      var result;
      result, progress := Simulate(ValidPlayerCards(), ValidCommunityCards(), iterationsCount, cancelAt);
      if result.Some? {
        simulationResult := result;
        simulationState := Completed;
      } else if cancelAt.Some? {
        simulationState := Cancelled;
      } else {
        // The source shows SimulationFailed here; a run that got past the
        // guard passes every check of `simulate`, so only a cancelled run
        // returns no result and this branch is never taken.
        assert false;
      }
      simulationProgress := 0.0;
      cancellationToken := null;
    }
  }
}
