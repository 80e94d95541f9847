/** The game component itself: an object whose fields are the component's
    state and whose methods are its event handlers. Each handler is proved to
    perform the transition of the same name in module Rules, and to keep the
    invariant `Rules.Inv`. */
module Engine {
  import opened Payout
  import opened Inputs
  import opened Board
  import opened Rules

  /** What a handler reports to the notification layer. */
  datatype StartOutcome = InsufficientFunds | Started
  datatype RevealOutcome = Ignored | Boom | Bloom(multiplier: real)
  datatype CashOutcome = NotCashedOut | CashedOut(winnings: int)

  /** The distinct values among the random draws. */
  function Drawn(draws: seq<int>): set<int>
  {
    set x | x in draws
  }

  /** The first loop of `initializeGame`: 25 unrevealed cells, numbered by
      position, holding neither a boom nor a reward yet. */
  method NewCells() returns (cells: seq<Cell>)
    ensures |cells| == GridSize
    ensures forall i :: 0 <= i < |cells| ==> cells[i] == Cell(i, false, false, false)
  {
    cells := [];
    var i := 0;
    while i < GridSize
      invariant 0 <= i <= GridSize
      invariant |cells| == i
      invariant forall j :: 0 <= j < i ==> cells[j] == Cell(j, false, false, false)
    {
      cells := cells + [Cell(i, false, false, false)];
      i := i + 1;
    }
  }

  /** The placement loop of `initializeGame`: draws are taken in order and
      added to the set until it holds `count` distinct positions. `draws`
      stands for the successive values of `Math.floor(Math.random() * 25)`,
      and is assumed to hold enough distinct values. */
  method PlaceBooms(draws: seq<int>, count: nat) returns (positions: set<int>)
    requires forall i :: 0 <= i < |draws| ==> 0 <= draws[i] < GridSize
    requires count <= |Drawn(draws)|
    ensures |positions| == count
    ensures OnBoard(positions)
    ensures positions <= Drawn(draws)
    ensures exists k :: 0 <= k <= |draws| && positions == Drawn(draws[..k])
  {
    positions := {};
    var i := 0;
    assert draws[..|draws|] == draws;
    while |positions| < count
      invariant 0 <= i <= |draws|
      invariant positions == Drawn(draws[..i])
      invariant |positions| <= count
      decreases |draws| - i
    {
      assert draws[..i + 1] == draws[..i] + [draws[i]];
      positions := positions + {draws[i]};
      i := i + 1;
    }
  }

  /** The `forEach` of `initializeGame`: a cell at a boom position gets the
      boom, every other cell the reward. */
  method AssignContents(cells: seq<Cell>, positions: set<int>) returns (grid: seq<Cell>)
    requires |cells| == GridSize
    requires forall i :: 0 <= i < |cells| ==> cells[i] == Cell(i, false, false, false)
    ensures grid == NewBoard(positions)
  {
    grid := cells;
    var index := 0;
    while index < |grid|
      invariant 0 <= index <= |grid| == GridSize
      invariant forall j :: 0 <= j < index ==> grid[j] == NewBoard(positions)[j]
      invariant forall j :: index <= j < |grid| ==> grid[j] == cells[j]
    {
      if index in positions {
        grid := grid[index := grid[index].(hasBoom := true)];
      } else {
        grid := grid[index := grid[index].(hasReward := true)];
      }
      index := index + 1;
    }
  }

  class GameBoard {
    var balance: int
    var betAmount: int
    var boomCount: int
    var gameState: GameState
    var grid: seq<Cell>
    var multiplier: real
    var revealedRewards: int

    /** The fields as one value. */
    function Snapshot(): Session
      reads this
    {
      Session(balance, betAmount, boomCount, gameState, grid, multiplier, revealedRewards)
    }

    ghost predicate Valid()
      reads this
    {
      Inv(Snapshot())
    }

    constructor ()
      ensures Valid() && Snapshot() == Initial()
    {
      balance, betAmount, boomCount := 1000, 10, 3;
      gameState, grid, multiplier, revealedRewards := Betting, [], 1.0, 0;
    }

    /** The bet field's `onChange`; the field is shown only while betting. */
    method SetBetAmount(p: Parsed)
      requires Valid() && gameState == Betting
      modifies this
      ensures Valid()
      ensures Snapshot() == SetBet(old(Snapshot()), p)
    {
      ghost var s := Snapshot();
      betAmount := ClampBet(p);
      SetBetStep(s, p);
    }

    /** The boom-count field's `onChange`; the field is shown only while betting. */
    method SetBoomCount(p: Parsed)
      requires Valid() && gameState == Betting
      modifies this
      ensures Valid()
      ensures Snapshot() == SetBooms(old(Snapshot()), p)
    {
      ghost var s := Snapshot();
      boomCount := ClampBooms(p);
      SetBoomsStep(s, p);
    }

    /** `initializeGame`, reached only from the betting form. The booms end
        up at distinct drawn positions, and the new state is the rule `Start`
        applied to the positions actually dealt. */
    method InitializeGame(draws: seq<int>) returns (outcome: StartOutcome)
      requires Valid() && gameState == Betting
      requires forall i :: 0 <= i < |draws| ==> 0 <= draws[i] < GridSize
      requires betAmount <= balance ==> boomCount <= |Drawn(draws)|
      modifies this
      ensures Valid()
      ensures outcome == InsufficientFunds <==> old(betAmount > balance)
      ensures |BoomCells(grid)| == boomCount || outcome == InsufficientFunds
      ensures BoomCells(grid) <= Drawn(draws)
      ensures outcome == Started ==>
        exists k :: 0 <= k <= |draws| && BoomCells(grid) == Drawn(draws[..k])
      ensures Snapshot() == Start(old(Snapshot()), BoomCells(grid))
    {
      ghost var s := Snapshot();
      if betAmount > balance {
        outcome := InsufficientFunds;
        assert BoomCells(grid) == {};
        return;
      }
      var cells := NewCells();
      var positions := PlaceBooms(draws, boomCount);
      var newGrid := AssignContents(cells, positions);
      grid := newGrid;
      gameState := Playing;
      revealedRewards := 0;
      multiplier := 1.0;
      balance := balance - betAmount;
      outcome := Started;
      NewBoardDealt(positions);
      StartRound(s, positions);
    }

    /** `revealCell(cellId)`: the new state is the rule `Reveal`; the outcome
        says whether the click was ignored, hit a boom, or found a reward. */
    method RevealCell(cellId: int) returns (outcome: RevealOutcome)
      requires Valid()
      modifies this
      ensures Valid()
      ensures Snapshot() == Reveal(old(Snapshot()), cellId)
      ensures outcome == Ignored <==> !CanReveal(old(Snapshot()), cellId)
      ensures outcome == Boom <==> CanReveal(old(Snapshot()), cellId) && old(grid)[cellId].hasBoom
      ensures outcome.Bloom? ==> outcome.multiplier == multiplier
    {
      ghost var s := Snapshot();
      RevealStep(s, cellId);
      if gameState != Playing {
        outcome := Ignored;
        return;
      }
      var found := FindById(grid, cellId);
      FindOnNumberedBoard(grid, cellId);
      if found.None? || grid[found.value].revealed {
        outcome := Ignored;
        return;
      }
      var cell := grid[found.value];
      grid := MarkRevealed(grid, cellId);
      if cell.hasBoom {
        gameState := Lost;
        outcome := Boom;
      } else {
        var newRevealedCount := revealedRewards + 1;
        revealedRewards := newRevealedCount;
        var newMultiplier := Multiplier(boomCount, newRevealedCount);
        multiplier := newMultiplier;
        outcome := Bloom(newMultiplier);
      }
    }

    /** `cashOut()`: the new state is the rule `CashOut`; a cash-out pays
        `floor(bet * multiplier)`, never less than the bet. */
    method CashOut() returns (outcome: CashOutcome)
      requires Valid()
      modifies this
      ensures Valid()
      ensures Snapshot() == Rules.CashOut(old(Snapshot()))
      ensures outcome.CashedOut? <==> old(gameState == Playing && revealedRewards > 0)
      ensures outcome.CashedOut? ==>
        outcome.winnings == Winnings(old(betAmount), old(multiplier)) && outcome.winnings >= old(betAmount)
    {
      ghost var s := Snapshot();
      CashOutStep(s);
      if gameState != Playing || revealedRewards == 0 {
        outcome := NotCashedOut;
        return;
      }
      var winnings := Winnings(betAmount, multiplier);
      balance := balance + winnings;
      gameState := Won;
      outcome := CashedOut(winnings);
    }

    /** `resetGame()`: the new state is the rule `Reset`. */
    method ResetGame()
      requires Valid()
      modifies this
      ensures Valid()
      ensures Snapshot() == Reset(old(Snapshot()))
    {
      ghost var s := Snapshot();
      ResetStep(s);
      gameState := Betting;
      grid := [];
      multiplier := 1.0;
      revealedRewards := 0;
    }
  }
}
