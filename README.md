# Connect Four: game engine and computer opponent

A Dafny model of the game-state engine of a browser Connect-Four game. It covers the
6×7 board, dropping a piece, the four-axis win test, the session scores and the two
reset buttons (`GameBoard`). It also covers the computer opponent (`ComputerPlayer`):
valid columns, easy/medium/hard move choice, the simulated drops that look for a
winning, blocking or strategic column, and the threat count behind the strategic test.

Modules:

- `Types` holds the cell and player type `Player = NoPlayer | Red | Yellow`. It mirrors
  `'red' | 'yellow' | null`, with `null` written `NoPlayer`. `Types` also holds the
  `Board` subset type (six rows of seven cells, row 0 at the top) and the `Scores`
  record.
- `Grid` holds the empty board, writing one cell (`Place`), the drop's landing row
  found by scanning up from row 5 (`LandingRow`), the computer's `IsValidColumn`
  (the top cell is empty), and gravity (`Settled`).
- `Lines` holds the run scan shared by both `checkWinner`s and `evaluatePosition`:
  - `Walk` and `CountAxis` are the loops of the source.
  - `Ray` and `AxisRun` specify those loops.
  - `Wins` and `ThreatCount` define the win test and the threat count.
  - `FourInARow` is an independent reference definition: four consecutive cells on a
    line through the cell.
  - `WinsIffFourInARow` proves that the scan's win test and the reference agree.
- `GameBoard` holds the class `Game` with the component's state fields `board`,
  `currentPlayer`, `winner` and `scores`. Its methods are `MakeMove`, `ResetGame` and
  `ResetScores`, and its invariant `Valid` says two things: pieces obey gravity, and
  a recorded winner is the player to move. The module also holds the game's
  `CheckWinner`.
- `ComputerPlayer` holds the computer opponent as methods:
  - The scans are proved against `Wins` and `ThreatCount`.
  - `GetValidColumns` is proved against `ValidColumns`.
  - The simulated drop is proved against `LandingRow` and `Place`.
  - The easy tier is proved against the drawn index `RandomIndex`.
  - The searches are proved against "leftmost valid column whose drop wins / makes
    two threats" (`IsFirstWinningColumn`, `IsFirstStrategicColumn`).
  - The medium and hard tiers and `GetMove` are proved against priority predicates
    (`MediumChoice`, `HardChoice`) built from those searches.
- `Scenarios` holds two concrete boards:
  - four reds along the bottom win;
  - a horizontal pair of yellows does not make a strategic column.

The board is a value. The source copies the board before every change and then
replaces the React state wholesale (`board.map(row => [...row])`, then `setBoard`),
and the computer player also works on copies, so value semantics matches it exactly.
`MakeMove` is atomic. The call to `Math.random` is the parameter `random`, a real
in [0, 1), and the index drawn is `Math.floor(random * n)`. The difficulty is a
string, so the `default:` branch of the switch is reachable.

The strategic test is not "some axis with a run of 2": `evaluatePosition` counts the
axes whose run through the landing cell is at least 3 (line 136), and
`findStrategicMove` wants at least two of them (line 108).
`Scenarios.PairIsNotStrategic` shows a pair that does not qualify.

## Model

| member | source | states |
|---|---|---|
| Grid.EmptyBoard | src/components/GameBoard.tsx:13-15 | the initial board has every one of the 6×7 cells empty |
| Grid.Place | src/components/GameBoard.tsx:67 | writing a piece sets that cell and leaves every other cell as it was |
| Grid.LowestEmpty | src/components/GameBoard.tsx:52-57 | the bottom-up scan returns an empty row with every row below it occupied, or -1 |
| Grid.LandingRow | src/components/GameBoard.tsx:49-59 | the landing row is the lowest empty cell of the column; it is -1 exactly when the column is full |
| Grid.EmptyBoardSettled | src/components/GameBoard.tsx:13-15 | the initial board obeys gravity |
| Grid.DropKeepsSettled | src/components/GameBoard.tsx:52-67 | dropping into the landing row keeps gravity |
| Grid.FullIffTopOccupied | src/components/ComputerPlayer.tsx:28 | on a settled board, the game's "no landing row" and the computer's "top cell occupied" coincide |
| Grid.ValidColumnHasRoom | src/components/ComputerPlayer.tsx:87-89 | a column with an empty top cell always has a landing row |
| GameBoard.Game.constructor | src/components/GameBoard.tsx:13-24 | empty board, red to move, no winner, both scores 0 |
| GameBoard.Game.ResetGame | src/components/GameBoard.tsx:32-37 | empty board, red to move, no winner, scores unchanged |
| GameBoard.Game.ResetScores | src/components/GameBoard.tsx:39-44 | both scores 0, board, player and winner unchanged |
| GameBoard.Game.MakeMove | src/components/GameBoard.tsx:46-82 | no change once there is a winner or when the column is full; otherwise the mover's piece is placed in the landing row and nothing else on the board changes; a win records the mover, keeps the turn and adds 1 to the mover's score only; any other move passes the turn and leaves winner and scores unchanged; gravity is kept; by gravity, the column is rejected as full exactly when its top cell is occupied, the computer's test of a valid column |
| GameBoard.CheckWinner | src/components/GameBoard.tsx:85-111 | true exactly when some axis through the cell counts at least 4 cells of its colour |
| Lines.AxesAreLines | src/components/GameBoard.tsx:87-92 | each of the four axes pairs a direction with its reverse |
| Lines.Walk | src/components/GameBoard.tsx:97-106 | the walk counts exactly the consecutive in-bounds cells of the colour in its direction |
| Lines.CountAxis | src/components/GameBoard.tsx:95-107 | the axis count is 1 plus the two walks starting next to the cell |
| Lines.WinsIffFourInARow | src/components/GameBoard.tsx:85-111 | the scan's win test holds exactly when the cell lies in four consecutive cells of its colour on one of the four lines |
| Lines.AxisWinIsWindow | src/components/GameBoard.tsx:94-108 | on one line, a count of 4 or more is the same thing as a window of four through the cell |
| Lines.RaysMakeWindow | src/components/GameBoard.tsx:95-107 | the two walks of a line plus the cell reach 4 exactly when a window of four covers the cell |
| Lines.RayPrefix | src/components/GameBoard.tsx:99-106 | a walk counts at least 1, 2 or 3 exactly when that many cells one step apart hold the colour |
| Lines.AheadCells | src/components/GameBoard.tsx:97-106 | the forward walk reaches k (k ≤ 3) exactly when the cells 1..k steps ahead hold the colour |
| Lines.BehindCells | src/components/GameBoard.tsx:97-106 | the backward walk reaches k (k ≤ 3) exactly when the cells 1..k steps behind hold the colour |
| Lines.AxisRunBounds | src/components/GameBoard.tsx:95-106 | every axis count through a board cell is between 1 and 7 |
| Lines.LineWithinBoard | src/components/GameBoard.tsx:95-106 | on a line through a board cell, the count is between 1 and 7 |
| Lines.RaysWithinBoard | src/components/GameBoard.tsx:99-106 | the two walks of a line plus the cell count at most 7 |
| Lines.RaysAcrossColumns | src/components/GameBoard.tsx:99-106 | a line moving across columns counts at most 7 |
| Lines.RaysAcrossRows | src/components/GameBoard.tsx:99-106 | the vertical line counts at most 6, the number of rows |
| Lines.RayWithinColumns | src/components/GameBoard.tsx:100 | a walk that moves across columns stays within the columns ahead of it |
| Lines.RayWithinRows | src/components/GameBoard.tsx:100 | a walk that moves across rows stays within the rows ahead of it |
| Lines.Threats | src/components/ComputerPlayer.tsx:125-137 | the threats counted over the first n axes are at most n |
| Lines.ThreatCount | src/components/ComputerPlayer.tsx:116-139 | the threat count is between 0 and 4 |
| Lines.OneThreat | src/components/ComputerPlayer.tsx:136 | some threat exactly when some axis has a run of 3; a full count exactly when every axis has one |
| Lines.TwoThreats | src/components/ComputerPlayer.tsx:108 | two or more threats exactly when two different axes each have a run of 3 |
| ComputerPlayer.Opponent | src/components/ComputerPlayer.tsx:46 | the opponent is a colour different from the player |
| ComputerPlayer.OpponentSwaps | src/components/ComputerPlayer.tsx:65 | the opponent of red is yellow and of yellow is red; taking the opponent twice gives the player back |
| ComputerPlayer.ValidBelow | src/components/ComputerPlayer.tsx:27-28 | the columns below n with an empty top cell, strictly increasing, and no others |
| ComputerPlayer.ValidColumns | src/components/ComputerPlayer.tsx:25-31 | exactly the columns 0..6 with an empty top cell, in increasing order |
| ComputerPlayer.GetValidColumns | src/components/ComputerPlayer.tsx:25-31 | the loop builds exactly the valid columns in increasing order |
| ComputerPlayer.RandomIndex | src/components/ComputerPlayer.tsx:35 | `Math.floor(random * n)` is an index below n |
| ComputerPlayer.RandomIndexSlice | src/components/ComputerPlayer.tsx:35 | the draw is uniform: index i is drawn exactly when random lies in [i/n, (i+1)/n), a slice of width 1/n |
| ComputerPlayer.EveryValidColumnDrawable | src/components/ComputerPlayer.tsx:35 | each valid column is the easy move for some value of the random number |
| ComputerPlayer.GetEasyModeMove | src/components/ComputerPlayer.tsx:33-36 | the move is the valid column at the drawn index, hence valid |
| ComputerPlayer.SimulateDrop | src/components/ComputerPlayer.tsx:86-90 | the scan stops at the landing row, and the copy is the input board with only that cell written |
| ComputerPlayer.FindWinningMove | src/components/ComputerPlayer.tsx:82-97 | the leftmost valid column whose drop wins at once; none exactly when no valid column wins |
| ComputerPlayer.FindStrategicMove | src/components/ComputerPlayer.tsx:99-114 | the leftmost valid column whose drop scores at least 2 threats; none exactly when no valid column does |
| ComputerPlayer.EvaluatePosition | src/components/ComputerPlayer.tsx:116-139 | the number of axes, between 0 and 4, whose run of the player through the cell is at least 3 |
| ComputerPlayer.CheckWinner | src/components/ComputerPlayer.tsx:141-164 | the same win test as the game's: some axis counts at least 4 |
| ComputerPlayer.GetMediumModeMove | src/components/ComputerPlayer.tsx:38-55 | a valid column: the first winning one, else the first one blocking the opponent's win, else 3 if it is valid, else the randomly drawn valid column |
| ComputerPlayer.PreferenceCoversColumns | src/components/ComputerPlayer.tsx:74-79 | when any column is valid, some column of the order 3, 2, 4, 1, 5, 0, 6 is valid, so line 79 is never reached |
| ComputerPlayer.GetHardModeMove | src/components/ComputerPlayer.tsx:57-80 | a valid column: win, else block, else the first strategic column, else the first valid column in the preference order |
| ComputerPlayer.GetMove | src/components/ComputerPlayer.tsx:8-23 | a valid column for every difficulty; hard, easy and medium choose as their tiers do, and any other difficulty plays as medium |
| Scenarios.BottomFourWins | src/components/GameBoard.tsx:85-111 | four reds along the bottom row win through the last one, both by the scan and by the reference definition |
| Scenarios.PairAxis | src/components/ComputerPlayer.tsx:125-135 | on a board with a horizontal yellow pair, the axis counts through the second piece are 2, 1, 1, 1 |
| Scenarios.PairIsNotStrategic | src/components/ComputerPlayer.tsx:99-114 | dropping yellow next to a yellow corner piece makes a run of 2 only, and is not a strategic move |

## Left out

- Sound effects (`Audio`, `.play()`): browser I/O.
- The staged drop animation with `setTimeout`/`await` and the `dropAnimation` half of the guard at the start of `makeMove`. Moves are applied atomically, so that flag is never set between calls.
- The JSX rendering, score display and buttons: user interface only.
- src/components/WinnerEffect.tsx (confetti) and src/app/page.tsx (page layout) are not part of this model.
- `Math.random` itself is not modelled. It is the parameter `random`, a real in [0, 1).
- Draw detection: no code implements it, so on a full board every move is rejected as a full column.
- GameBoard.Game.MakeMove: requires `0 <= column < 7`. The source does not check the column. Its only caller is the click handler of every cell (src/components/GameBoard.tsx:142), and it passes that cell's column index, 0..6.
- ComputerPlayer.GetMove: the easy, medium and hard tiers require at least one valid column. With none, the source returns `undefined`.
- ComputerPlayer.GetHardModeMove: the source's final `return validColumns[0]` is modelled as an unreachable branch. This is proved, given a valid column.
