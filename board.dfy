/** The board: 25 cells, each either a boom or a reward, and the two
    array operations the game applies to it (`find` and `map`). */
module Board {

  /** Number of cells on the board. */
  const GridSize: int := 25

  datatype Option<T> = None | Some(value: T)

  /** One cell of the board; `id` is its position. */
  datatype Cell = Cell(id: int, revealed: bool, hasBoom: bool, hasReward: bool)

  /** The positions that hold a boom. */
  function BoomCells(grid: seq<Cell>): set<int>
  {
    set i | 0 <= i < |grid| && grid[i].hasBoom
  }

  /** The positions of reward cells that have been revealed. */
  function RevealedRewardCells(grid: seq<Cell>): set<int>
  {
    set i | 0 <= i < |grid| && grid[i].revealed && !grid[i].hasBoom
  }

  /** The positions of boom cells that have been revealed. */
  function RevealedBoomCells(grid: seq<Cell>): set<int>
  {
    set i | 0 <= i < |grid| && grid[i].revealed && grid[i].hasBoom
  }

  /** The positions of every revealed cell. */
  function RevealedCells(grid: seq<Cell>): set<int>
  {
    set i | 0 <= i < |grid| && grid[i].revealed
  }

  /** The positions 0 .. n-1. */
  function Positions(n: nat): (s: set<int>)
    ensures forall i :: i in s <==> 0 <= i < n
  {
    if n == 0 then {} else Positions(n - 1) + {n - 1}
  }

  predicate IdsAreIndices(grid: seq<Cell>)
  {
    forall i :: 0 <= i < |grid| ==> grid[i].id == i
  }

  predicate NoneRevealed(grid: seq<Cell>)
  {
    forall i :: 0 <= i < |grid| ==> !grid[i].revealed
  }

  /** A board of a round with `booms` booms: 25 cells numbered by position,
      every cell holds exactly one of a boom and a reward, and exactly
      `booms` cells hold a boom. */
  predicate WellFormed(grid: seq<Cell>, booms: int)
  {
    && |grid| == GridSize
    && IdsAreIndices(grid)
    && (forall i :: 0 <= i < |grid| ==> grid[i].hasReward == !grid[i].hasBoom)
    && |BoomCells(grid)| == booms
  }

  /** Boom positions a round can be dealt: positions on the board. */
  predicate OnBoard(positions: set<int>)
  {
    forall p :: p in positions ==> 0 <= p < GridSize
  }

  /** The board a round starts with when the booms lie at `positions`. */
  function NewBoard(positions: set<int>): seq<Cell>
  {
    seq(GridSize, i => Cell(i, false, i in positions, i !in positions))
  }

  /** A freshly dealt board is well formed, unrevealed, and holds its booms
      exactly at the dealt positions. */
  lemma NewBoardDealt(positions: set<int>)
    requires OnBoard(positions)
    ensures WellFormed(NewBoard(positions), |positions|)
    ensures NoneRevealed(NewBoard(positions))
    ensures BoomCells(NewBoard(positions)) == positions
    ensures RevealedRewardCells(NewBoard(positions)) == {}
    ensures RevealedBoomCells(NewBoard(positions)) == {}
  {
    var g := NewBoard(positions);
    assert BoomCells(g) == positions by {
      forall p | p in positions ensures p in BoomCells(g) {
        assert g[p].hasBoom;
      }
    }
  }

  /** `grid.find(c => c.id === id)`: the position of the first cell with that id. */
  function FindById(grid: seq<Cell>, id: int): (r: Option<int>)
    ensures r.Some? ==> 0 <= r.value < |grid| && grid[r.value].id == id
    ensures r.Some? ==> forall j :: 0 <= j < r.value ==> grid[j].id != id
    ensures r.None? ==> forall j :: 0 <= j < |grid| ==> grid[j].id != id
  {
    if |grid| == 0 then None
    else if grid[0].id == id then Some(0)
    else match FindById(grid[1..], id)
      case None => None
      case Some(k) => Some(k + 1)
  }

  /** On a board numbered by position, `find` succeeds exactly for the
      positions on the board and returns the position itself. */
  lemma FindOnNumberedBoard(grid: seq<Cell>, id: int)
    requires IdsAreIndices(grid)
    ensures FindById(grid, id) == if 0 <= id < |grid| then Some(id) else None
  {
    if 0 <= id < |grid| {
      assert grid[id].id == id;
    }
  }

  /** `grid.map(c => c.id === id ? { ...c, revealed: true } : c)`. */
  function MarkRevealed(grid: seq<Cell>, id: int): (g: seq<Cell>)
    ensures |g| == |grid|
    ensures IdsAreIndices(grid) && 0 <= id < |grid| ==> g == grid[id := grid[id].(revealed := true)]
    ensures IdsAreIndices(grid) && !(0 <= id < |grid|) ==> g == grid
  {
    seq(|grid|, i requires 0 <= i < |grid| =>
      if grid[i].id == id then grid[i].(revealed := true) else grid[i])
  }

  /** Revealing one unrevealed cell keeps the board well formed and adds that
      cell to exactly one of the two revealed sets. */
  lemma RevealOne(grid: seq<Cell>, booms: int, k: int)
    requires WellFormed(grid, booms)
    requires 0 <= k < |grid| && !grid[k].revealed
    ensures WellFormed(MarkRevealed(grid, k), booms)
    ensures BoomCells(MarkRevealed(grid, k)) == BoomCells(grid)
    ensures k !in RevealedBoomCells(grid) && k !in RevealedRewardCells(grid)
    ensures grid[k].hasBoom ==> RevealedBoomCells(MarkRevealed(grid, k)) == RevealedBoomCells(grid) + {k}
    ensures grid[k].hasBoom ==> RevealedRewardCells(MarkRevealed(grid, k)) == RevealedRewardCells(grid)
    ensures !grid[k].hasBoom ==> RevealedRewardCells(MarkRevealed(grid, k)) == RevealedRewardCells(grid) + {k}
    ensures !grid[k].hasBoom ==> RevealedBoomCells(MarkRevealed(grid, k)) == RevealedBoomCells(grid)
  {
    var g := MarkRevealed(grid, k);
    assert BoomCells(g) == BoomCells(grid);
    if grid[k].hasBoom {
      assert RevealedBoomCells(g) == RevealedBoomCells(grid) + {k};
      assert RevealedRewardCells(g) == RevealedRewardCells(grid);
    } else {
      assert RevealedRewardCells(g) == RevealedRewardCells(grid) + {k};
      assert RevealedBoomCells(g) == RevealedBoomCells(grid);
    }
  }

  lemma {:induction false} PositionsCount(n: nat)
    ensures |Positions(n)| == n
  {
    if n > 0 {
      PositionsCount(n - 1);
      assert Positions(n) == Positions(n - 1) + {n - 1};
    }
  }

  lemma SubsetCount(a: set<int>, b: set<int>)
    requires a <= b
    ensures |a| <= |b|
  {
    assert |b - a| == |b| - |a|;
  }

  /** A board can never show more revealed rewards than it has reward cells. */
  lemma SafeRevealsBound(grid: seq<Cell>, count: int)
    requires WellFormed(grid, count)
    ensures |RevealedRewardCells(grid)| <= GridSize - count
  {
    var all := Positions(GridSize);
    var booms := BoomCells(grid);
    var safe := all - booms;
    assert booms <= all;
    PositionsCount(GridSize);
    SubsetCount(booms, all);
    assert |safe| == GridSize - |booms|;
    assert RevealedRewardCells(grid) <= safe;
    SubsetCount(RevealedRewardCells(grid), safe);
  }
}
