# Boom or Bloom: a verified model of the game engine

The "Boom or Bloom" mini-game in `src/components/GameBoard.tsx` works like this. The
player stakes `betAmount` out of `balance` and picks `boomCount` (between 1 and 15).
Starting a round debits the stake and deals a 25-cell board with exactly that many
booms. Each reward cell the player reveals raises the payout multiplier. Revealing a
boom loses the stake. Cashing out credits `floor(bet * multiplier)`. Reset returns
to the betting form.

The project has five modules:

- `Payout` (payout.dfy): `calculateMultiplier`, with the JavaScript literal `0.3`
  taken as the exact rational 3/10, and the floored payout. It proves that the
  multiplier is 1 before any reveal, is above 1 after one, and strictly increases
  with reveals and with booms. It also proves that the floored payout equals an
  integer-only formula and is never less than the bet.
- `Inputs` (inputs.dfy): the two clamping `onChange` handlers of the betting form.
  Each takes the result of `parseInt`, which is an integer or NaN.
- `Board` (board.dfy): the `Cell` record, the freshly dealt board, and the two array
  operations the handlers use. These are `find` by id and `map` that turns one cell
  face up.
- `Rules` (rules.dfy): the component's seven state fields as one `Session` value. It
  defines each handler as a transition function on that value, the invariant every
  transition keeps, and lemmas stating what each transition promises. These include
  the no-op cases, idempotent reveals, and a balance that never goes negative.
- `Engine` (engine.dfy): class `GameBoard`, whose fields are the component's state and
  whose methods are its handlers. `initializeGame` keeps its three loops: build the
  cells, place booms by rejection sampling, and assign booms and rewards. Every
  method is proved to produce exactly the `Rules` transition of its name and to keep
  the invariant.

The source does not check the preconditions below itself; the user interface
enforces them, and the model states them as preconditions:

- `initializeGame` and both input handlers are only reachable while betting,
  because the form is rendered only in that state (GameBoard.tsx:199, :227).
  They carry `requires gameState == Betting`.
- The bet is at least 1 and the boom count lies in [1, 15] because the two clamps
  (GameBoard.tsx:206, :218) are the only writers of those fields. This is part
  of the class invariant, established by the constructor and kept by the two
  setters.

Three things the code does not do:

- It does not validate the bet or the boom count inside `initializeGame`, and
  has no "invalid parameter" error. The clamps guarantee the ranges instead.
- It does not check the game state in `initializeGame`.
- It does not guarantee fair boom positions. They come from rejection sampling
  with `Math.random`, whose fairness is not modelled (see below).

## Model

| member | source | states |
|---|---|---|
| `Payout.Denominator` | src/components/GameBoard.tsx:27-29 | the divisor `max(1, 25 - booms - revealed)` is at least 1 and is either 1 or the number of unrevealed safe cells |
| `Payout.MultiplierAtStart` | src/components/GameBoard.tsx:28 | with no reward revealed the multiplier is exactly 1 |
| `Payout.MultiplierAboveOne` | src/components/GameBoard.tsx:26-30 | with at least one boom and one reveal the multiplier is strictly above 1 |
| `Payout.MultiplierAtLeastOne` | src/components/GameBoard.tsx:26-30 | for non-negative arguments the multiplier is never below 1 |
| `Payout.MultiplierIncreasesWithReveals` | src/components/GameBoard.tsx:26-30 | for a fixed boom count of at least 1, every further reveal strictly raises the multiplier |
| `Payout.MultiplierIncreasesWithBooms` | src/components/GameBoard.tsx:223 | for a fixed number of reveals of at least 1, more booms give a strictly higher multiplier ("More booms = higher multiplier") |
| `Payout.WinningsFormula` | src/components/GameBoard.tsx:111 | `floor(bet * multiplier)` equals `bet + (bet*booms*3*r) / (10*max(1, 25-booms-r))` for every integer bet |
| `Payout.WinningsCoverBet` | src/components/GameBoard.tsx:111 | a cash-out pays at least the bet |
| `Inputs.OrOne` | src/components/GameBoard.tsx:206 | `parseInt(...) \|\| 1` maps NaN and 0 to 1 and keeps every other number |
| `Inputs.ClampBet` | src/components/GameBoard.tsx:206 | the bet is at least 1; a typed number of at least 1 is kept, everything else becomes 1 |
| `Inputs.ClampBooms` | src/components/GameBoard.tsx:218 | the boom count lies in [1, 15]; a number in range is kept, a larger one becomes 15, everything else becomes 1 |
| `Board.NewBoardDealt` | src/components/GameBoard.tsx:42-68 | a dealt board has 25 cells with id equal to position, none revealed, reward exactly where there is no boom, and booms exactly at the dealt positions |
| `Board.FindById` | src/components/GameBoard.tsx:80 | `find` returns the first cell with the id, or nothing when no cell has it |
| `Board.FindOnNumberedBoard` | src/components/GameBoard.tsx:80-81 | on a board numbered by position, the lookup succeeds exactly for ids 0..24 and returns that position |
| `Board.MarkRevealed` | src/components/GameBoard.tsx:83-85 | on a board numbered by position, the `map` turns up the target cell only; an unknown id leaves the board as it was |
| `Board.RevealOne` | src/components/GameBoard.tsx:83-99 | turning up one hidden cell keeps the board well formed and the booms in place, and adds the cell to the revealed booms or the revealed rewards according to its content |
| `Board.SafeRevealsBound` | src/components/GameBoard.tsx:96 | no board shows more revealed rewards than `25 - boomCount` |
| `Rules.Initial` | src/components/GameBoard.tsx:16-22 | the initial state (balance 1000, bet 10, 3 booms, betting, no board) satisfies the invariant |
| `Rules.SetBetStep` | src/components/GameBoard.tsx:206 | editing the bet keeps the invariant and changes nothing but a bet of at least 1 |
| `Rules.SetBoomsStep` | src/components/GameBoard.tsx:218 | editing the boom count keeps the invariant and changes nothing but a count in [1, 15] |
| `Rules.StartRound` | src/components/GameBoard.tsx:32-75 | a bet above the balance changes nothing; otherwise the balance drops by exactly the bet and the round starts playing on a fresh 25-cell board with exactly `boomCount` booms, no reward found and multiplier 1; the invariant is kept |
| `Rules.RevealStep` | src/components/GameBoard.tsx:77-106 | an ignored click changes nothing. Otherwise only the target cell turns up. A boom loses the round and keeps multiplier and count. A reward adds one to the count and sets the multiplier to the formula at the new count. The balance, bet and boom count never change. |
| `Rules.RevealChangesIffLegal` | src/components/GameBoard.tsx:78-81 | a reveal changes the state if and only if the round is in play and the cell exists and is hidden |
| `Rules.RevealIdempotent` | src/components/GameBoard.tsx:78-86 | revealing the same cell twice has the effect of revealing it once |
| `Rules.PlayingCounts` | src/components/GameBoard.tsx:88-99 | while playing, the reward count equals the number of revealed cells and no revealed cell holds a boom |
| `Rules.RewardsBound` | src/components/GameBoard.tsx:96-98 | once a round has started, the reward count lies in [0, 25 - boomCount] |
| `Rules.CashOutStep` | src/components/GameBoard.tsx:108-113 | cash-out is a no-op unless playing with a reward found. Otherwise it wins the round and credits `floor(bet * multiplier)`, at least the bet. The board, multiplier, reward count, bet and boom count stay as they were. The invariant, and with it a non-negative balance, is kept. |
| `Rules.ResetStep` | src/components/GameBoard.tsx:121-126 | reset yields betting, an empty board, multiplier 1 and no rewards, and leaves balance, bet and boom count unchanged |
| `Rules.ExampleRound` | src/components/GameBoard.tsx:32-119 | from the initial state with booms at 0, 1, 2, starting leaves 990. One safe reveal makes the multiplier 1 + 0.9/21, and cashing out then pays 10. Hitting a boom instead loses, after which clicks are ignored. |
| `Engine.NewCells` | src/components/GameBoard.tsx:44-52 | the first loop builds 25 hidden, empty cells with id equal to position |
| `Engine.PlaceBooms` | src/components/GameBoard.tsx:54-59 | the rejection loop stops with exactly `boomCount` distinct positions on the board, all drawn, namely the distinct values of a prefix of the draws |
| `Engine.AssignContents` | src/components/GameBoard.tsx:61-68 | the `forEach` gives each drawn position a boom and every other cell a reward, producing the dealt board |
| `Engine.GameBoard.constructor` | src/components/GameBoard.tsx:16-22 | the component starts in the initial state, which satisfies the invariant |
| `Engine.GameBoard.SetBetAmount` | src/components/GameBoard.tsx:206 | the handler performs the bet edit and keeps the invariant |
| `Engine.GameBoard.SetBoomCount` | src/components/GameBoard.tsx:218 | the handler performs the boom-count edit and keeps the invariant |
| `Engine.GameBoard.InitializeGame` | src/components/GameBoard.tsx:32-75 | it reports insufficient funds exactly when the bet exceeds the balance. Otherwise exactly `boomCount` booms lie at drawn positions, namely the distinct values of a prefix of the draws. The new state is the start transition for the dealt booms, and the invariant is kept. |
| `Engine.GameBoard.RevealCell` | src/components/GameBoard.tsx:77-106 | the new state is the reveal transition. The outcome is "ignored" exactly when the click is ignored and "boom" exactly when a hidden boom is hit. A reward reports the new multiplier. |
| `Engine.GameBoard.CashOut` | src/components/GameBoard.tsx:108-119 | the new state is the cash-out transition, and the winnings reported are `floor(bet * multiplier)`, at least the bet |
| `Engine.GameBoard.ResetGame` | src/components/GameBoard.tsx:121-126 | the new state is the reset transition, and the invariant is kept |

## Left out

- Rendering is not modelled: the JSX, the styling, and the triangular pixel layout (GameBoard.tsx:128-310). It is presentation only.
- `toast` notifications are not modelled. Each handler instead returns an outcome code saying which message the user interface would show.
- `Math.random` is not modelled. Its successive values `Math.floor(Math.random() * 25)` are an injected sequence `draws`.
- Engine.PlaceBooms and Engine.GameBoard.InitializeGame require that `draws` holds at least `boomCount` distinct values. This stands in for the rejection loop terminating with probability 1.
- The uniform distribution of boom positions is not stated. The model proves only that the positions are distinct, drawn, and of the right number.
- IEEE-754 doubles are not modelled. `0.3` is the exact rational 3/10, and `Math.floor` is taken on exact reals, so the model's payout can differ from the program's on ordinary inputs, not only at rare boundaries. For example, with bet 2, 9 booms and 10 rewards found, the exact payout is 2 * (1 + 27/6) = 11. The program computes (9 * 0.3) * 10 = 26.999999999999996 and divides by 6 to get 4.499999999999999. The product is then 2 * 5.499999999999999 = 10.999999999999998, so `Math.floor` pays 10 where Payout.Winnings gives 11. `toFixed(2)` formatting is not modelled either.
- `parseInt` is not modelled. The clamps take its result, an integer or NaN.
- The `max={balance}` attribute of the bet field is not modelled. It does not clamp typed values, so a bet above the balance reaches `initializeGame`, which reports insufficient funds.
- React state batching and closures are not modelled. Each handler is one atomic transition on the component's state.
- Engine.GameBoard.InitializeGame, Engine.GameBoard.SetBetAmount and Engine.GameBoard.SetBoomCount require the betting state. The source leaves this to the user interface, which renders the form only while betting.
- The multiplier has no upper bound. The formula is kept as written, and its growth is only stated as monotone.
- The other pages and the layout shell are not part of this model: `Projects.tsx`, `About.tsx`, `Education.tsx`, `Skills.tsx`, `Home.tsx` and `Layout.tsx`. They are static content, a timer-driven typewriter effect, and routing.
