/** The game's rules as transitions on a value holding every field of the
    game component. The class in module Engine performs these transitions in
    place; the lemmas here state what each one promises. */
module Rules {
  import opened Payout
  import opened Inputs
  import opened Board

  datatype GameState = Betting | Playing | Won | Lost

  /** All the state the component keeps: the balance, the two form inputs,
      the round's state, its board, its multiplier and its reward count. */
  datatype Session = Session(
    balance: int,
    betAmount: int,
    boomCount: int,
    state: GameState,
    grid: seq<Cell>,
    multiplier: real,
    revealedRewards: int)

  /** What holds between transitions:
      - the inputs are within the ranges the form enforces and the balance is not negative;
      - while betting there is no board and the multiplier is 1;
      - once a round has started, the board is well formed with `boomCount` booms,
        `revealedRewards` counts the revealed reward cells and `multiplier` is the
        payout formula at that count;
      - a playing or won round has revealed no boom, a won round at least one reward,
        and a lost round exactly one boom. */
  predicate Inv(s: Session)
  {
    && s.betAmount >= 1
    && 1 <= s.boomCount <= MaxBooms
    && s.balance >= 0
    && (s.state == Betting ==> s.grid == [] && s.revealedRewards == 0 && s.multiplier == 1.0)
    && (s.state != Betting ==>
          && WellFormed(s.grid, s.boomCount)
          && s.revealedRewards == |RevealedRewardCells(s.grid)|
          && s.multiplier == Multiplier(s.boomCount, s.revealedRewards))
    && (s.state == Playing || s.state == Won ==> RevealedBoomCells(s.grid) == {})
    && (s.state == Won ==> s.revealedRewards >= 1)
    && (s.state == Lost ==> |RevealedBoomCells(s.grid)| == 1)
  }

  /** The component's initial state: balance 1000, bet 10, 3 booms, betting. */
  function Initial(): (s: Session)
    ensures Inv(s) && s.state == Betting && s.balance == 1000
  {
    Session(1000, 10, 3, Betting, [], 1.0, 0)
  }

  /** The bet field's change handler. */
  function SetBet(s: Session, p: Parsed): Session
  {
    s.(betAmount := ClampBet(p))
  }

  /** The boom-count field's change handler. */
  function SetBooms(s: Session, p: Parsed): Session
  {
    s.(boomCount := ClampBooms(p))
  }

  /** `initializeGame` with the booms dealt at `positions`. */
  function Start(s: Session, positions: set<int>): Session
  {
    if s.betAmount > s.balance then s
    else s.(grid := NewBoard(positions), state := Playing, revealedRewards := 0,
            multiplier := 1.0, balance := s.balance - s.betAmount)
  }

  /** `revealCell(id)`. */
  function Reveal(s: Session, id: int): Session
  {
    if s.state != Playing then s
    else match FindById(s.grid, id)
      case None => s
      case Some(k) =>
        if s.grid[k].revealed then s
        else if s.grid[k].hasBoom then s.(grid := MarkRevealed(s.grid, id), state := Lost)
        else
          var n := s.revealedRewards + 1;
          s.(grid := MarkRevealed(s.grid, id), revealedRewards := n,
             multiplier := Multiplier(s.boomCount, n))
  }

  /** `cashOut()`. */
  function CashOut(s: Session): Session
  {
    if s.state != Playing || s.revealedRewards == 0 then s
    else s.(balance := s.balance + Winnings(s.betAmount, s.multiplier), state := Won)
  }

  /** `resetGame()`. */
  function Reset(s: Session): Session
  {
    s.(state := Betting, grid := [], multiplier := 1.0, revealedRewards := 0)
  }

  /** A reveal the game acts on: a round in play, a cell on the board, not yet shown. */
  predicate CanReveal(s: Session, id: int)
  {
    s.state == Playing && 0 <= id < |s.grid| && !s.grid[id].revealed
  }

  // ---------------------------------------------------------------------------
  // The betting form

  /** Editing the bet keeps the invariant and touches nothing but the bet. */
  lemma SetBetStep(s: Session, p: Parsed)
    requires Inv(s) && s.state == Betting
    ensures Inv(SetBet(s, p))
    ensures SetBet(s, p).betAmount >= 1
    ensures SetBet(s, p) == s.(betAmount := SetBet(s, p).betAmount)
  {
  }

  /** Editing the boom count keeps the invariant and touches nothing but the count. */
  lemma SetBoomsStep(s: Session, p: Parsed)
    requires Inv(s) && s.state == Betting
    ensures Inv(SetBooms(s, p))
    ensures 1 <= SetBooms(s, p).boomCount <= MaxBooms
    ensures SetBooms(s, p) == s.(boomCount := SetBooms(s, p).boomCount)
  {
  }

  // ---------------------------------------------------------------------------
  // Starting a round

  /** A bet above the balance changes nothing. Otherwise the stake is debited,
      and the round starts in play on a fresh board of 25 numbered, unrevealed
      cells whose booms are exactly the dealt positions, each other cell a reward,
      with no reward found and multiplier 1. */
  lemma StartRound(s: Session, positions: set<int>)
    requires Inv(s)
    requires OnBoard(positions) && |positions| == s.boomCount
    ensures s.betAmount > s.balance ==> Start(s, positions) == s
    ensures s.betAmount <= s.balance ==>
      var r := Start(s, positions);
      && r.balance == s.balance - s.betAmount
      && r.state == Playing
      && |r.grid| == GridSize
      && (forall i :: 0 <= i < |r.grid| ==> r.grid[i].id == i && !r.grid[i].revealed)
      && (forall i :: 0 <= i < |r.grid| ==> r.grid[i].hasReward == !r.grid[i].hasBoom)
      && BoomCells(r.grid) == positions
      && |BoomCells(r.grid)| == s.boomCount
      && r.revealedRewards == 0
      && r.multiplier == 1.0
      && r.betAmount == s.betAmount && r.boomCount == s.boomCount
    ensures Inv(Start(s, positions))
  {
    if s.betAmount <= s.balance {
      NewBoardDealt(positions);
      MultiplierAtStart(s.boomCount);
    }
  }

  // ---------------------------------------------------------------------------
  // Revealing a cell

  /** What a reveal does. An ignored reveal (not in play, no such cell, or the
      cell already shown) changes nothing. Otherwise exactly the target cell is
      turned face up; a boom loses the round and leaves multiplier and reward
      count as they were, a reward raises the count by one and sets the
      multiplier to the formula at the new count. The balance, the bet and the
      boom count never change, and the invariant is kept. */
  lemma RevealStep(s: Session, id: int)
    requires Inv(s)
    ensures Inv(Reveal(s, id))
    ensures var r := Reveal(s, id);
      r.balance == s.balance && r.betAmount == s.betAmount && r.boomCount == s.boomCount
    ensures !CanReveal(s, id) ==> Reveal(s, id) == s
    ensures CanReveal(s, id) ==>
      var r := Reveal(s, id);
      && r.grid == s.grid[id := s.grid[id].(revealed := true)]
      && (s.grid[id].hasBoom ==>
            r.state == Lost && r.multiplier == s.multiplier && r.revealedRewards == s.revealedRewards)
      && (!s.grid[id].hasBoom ==>
            && r.state == Playing
            && r.revealedRewards == s.revealedRewards + 1
            && r.multiplier == Multiplier(s.boomCount, s.revealedRewards + 1))
  {
    if s.state == Playing {
      FindOnNumberedBoard(s.grid, id);
      if CanReveal(s, id) {
        RevealOne(s.grid, s.boomCount, id);
      }
    }
  }

  /** A reveal changes the state exactly when the game acts on it. */
  lemma RevealChangesIffLegal(s: Session, id: int)
    requires Inv(s)
    ensures Reveal(s, id) != s <==> CanReveal(s, id)
  {
    RevealStep(s, id);
    if CanReveal(s, id) {
      assert Reveal(s, id).grid[id].revealed;
    }
  }

  /** Clicking the same cell twice has the effect of clicking it once. */
  lemma RevealIdempotent(s: Session, id: int)
    requires Inv(s)
    ensures Reveal(Reveal(s, id), id) == Reveal(s, id)
  {
    RevealStep(s, id);
    var r := Reveal(s, id);
    RevealStep(r, id);
    if CanReveal(s, id) {
      assert !CanReveal(r, id);
    }
  }

  /** While a round is in play, the reward count is the number of revealed
      cells, and no revealed cell holds a boom. */
  lemma PlayingCounts(s: Session)
    requires Inv(s) && s.state == Playing
    ensures s.revealedRewards == |RevealedCells(s.grid)|
    ensures forall i :: 0 <= i < |s.grid| && s.grid[i].revealed ==> !s.grid[i].hasBoom
  {
    assert RevealedCells(s.grid) == RevealedRewardCells(s.grid) + RevealedBoomCells(s.grid);
    forall i | 0 <= i < |s.grid| && s.grid[i].revealed
      ensures !s.grid[i].hasBoom
    {
      assert i !in RevealedBoomCells(s.grid);
    }
  }

  /** Once a round has started, no more rewards can have been found than the
      board has reward cells. */
  lemma RewardsBound(s: Session)
    requires Inv(s) && s.state != Betting
    ensures 0 <= s.revealedRewards <= GridSize - s.boomCount
  {
    SafeRevealsBound(s.grid, s.boomCount);
  }

  // ---------------------------------------------------------------------------
  // Cashing out and resetting

  /** Cashing out is ignored unless a round is in play with at least one reward
      found. Otherwise it credits `floor(bet * multiplier)`, which is never less
      than the bet, and wins the round. The invariant is kept, so the balance
      never goes negative. */
  lemma CashOutStep(s: Session)
    requires Inv(s)
    ensures Inv(CashOut(s))
    ensures !(s.state == Playing && s.revealedRewards > 0) ==> CashOut(s) == s
    ensures s.state == Playing && s.revealedRewards > 0 ==>
      var r := CashOut(s);
      && r.state == Won
      && r.balance == s.balance + Winnings(s.betAmount, s.multiplier)
      && r.balance >= s.balance + s.betAmount
      && r.grid == s.grid && r.multiplier == s.multiplier && r.revealedRewards == s.revealedRewards
      && r.betAmount == s.betAmount && r.boomCount == s.boomCount
  {
    if s.state == Playing && s.revealedRewards > 0 {
      WinningsCoverBet(s.betAmount, s.boomCount, s.revealedRewards);
    }
  }

  /** Resetting returns to betting with no board, multiplier 1 and no rewards,
      and leaves the balance and both inputs alone. */
  lemma ResetStep(s: Session)
    requires Inv(s)
    ensures Inv(Reset(s))
    ensures var r := Reset(s);
      && r.state == Betting && r.grid == [] && r.multiplier == 1.0 && r.revealedRewards == 0
      && r.balance == s.balance && r.betAmount == s.betAmount && r.boomCount == s.boomCount
  {
  }

  // ---------------------------------------------------------------------------
  // One round played through

  /** Balance 1000, bet 10, booms at 0, 1 and 2: starting leaves 990; one safe
      reveal makes the multiplier 1 + 0.9/21; cashing out pays 10, back to 1000.
      Revealing a boom instead loses the round, after which clicks are ignored. */
  lemma ExampleRound()
    ensures var s1 := Start(Initial(), {0, 1, 2});
      && s1.balance == 990 && s1.state == Playing && |BoomCells(s1.grid)| == 3
      && Reveal(s1, 5).multiplier == 1.0 + 9.0 / 210.0
      && CashOut(Reveal(s1, 5)).balance == 1000
      && CashOut(Reveal(s1, 5)).state == Won
      && Reveal(s1, 0).state == Lost
      && Reveal(Reveal(s1, 0), 7) == Reveal(s1, 0)
  {
    var s0 := Initial();
    var s1 := Start(s0, {0, 1, 2});
    StartRound(s0, {0, 1, 2});
    RevealStep(s1, 5);
    var s2 := Reveal(s1, 5);
    assert s2.multiplier == Multiplier(3, 1);
    MultiplierAsQuotient(3, 1);
    WinningsFormula(10, 3, 1);
    assert IntegerWinnings(10, 3, 1) == 10;
    RevealStep(s1, 0);
  }
}
