/** Board operations shared by the game and the computer player: the empty
    board, the landing row of a drop, writing one cell, and gravity. */
module Grid {
  import opened Types

  /** The initial board: six rows of seven empty cells. */
  function EmptyBoard(): (b: Board)
    ensures forall r, c :: InBounds(r, c) ==> b[r][c] == NoPlayer
  {
    seq(Rows, _ => seq(Cols, _ => NoPlayer))
  }

  /** The board with cell (r, c) set to p and every other cell as it was. */
  function Place(b: Board, r: int, c: int, p: Player): (b': Board)
    requires InBounds(r, c)
    ensures b'[r][c] == p
    ensures forall i, j :: InBounds(i, j) && (i, j) != (r, c) ==> b'[i][j] == b[i][j]
  {
    b[r := b[r][c := p]]
  }

  /** The lowest empty cell of column col at or above row, or -1 when rows
      0..row of the column are all occupied. */
  function LowestEmpty(b: Board, col: int, row: int): (lr: int)
    requires 0 <= col < Cols && -1 <= row < Rows
    ensures -1 <= lr <= row
    ensures lr >= 0 ==> b[lr][col] == NoPlayer
    ensures forall i :: lr < i <= row ==> b[i][col] != NoPlayer
    decreases row + 1
  {
    if row < 0 then -1
    else if b[row][col] == NoPlayer then row
    else LowestEmpty(b, col, row - 1)
  }

  /** Where a piece dropped into col comes to rest, scanning up from the
      bottom row: the lowest empty row of the column, or -1 when it has none. */
  function LandingRow(b: Board, col: int): (lr: int)
    requires 0 <= col < Cols
    ensures -1 <= lr < Rows
    ensures lr >= 0 ==> b[lr][col] == NoPlayer
    ensures forall i :: lr < i < Rows ==> b[i][col] != NoPlayer
    ensures lr == -1 <==> forall i :: 0 <= i < Rows ==> b[i][col] != NoPlayer
  {
    LowestEmpty(b, col, Rows - 1)
  }

  /** A column the computer may play: its top cell is empty. */
  predicate IsValidColumn(b: Board, col: int) {
    0 <= col < Cols && b[0][col] == NoPlayer
  }

  /** Gravity: a cell above an empty cell of the same column is empty. */
  ghost predicate Settled(b: Board) {
    forall r1, r2, c :: 0 <= r1 < r2 < Rows && 0 <= c < Cols && b[r2][c] == NoPlayer ==> b[r1][c] == NoPlayer
  }

  lemma EmptyBoardSettled()
    ensures Settled(EmptyBoard())
  {
  }

  /** Dropping a piece onto a settled board leaves it settled. */
  lemma DropKeepsSettled(b: Board, col: int, p: Player)
    requires Settled(b) && 0 <= col < Cols && LandingRow(b, col) >= 0 && p != NoPlayer
    ensures Settled(Place(b, LandingRow(b, col), col, p))
  {
  }

  /** On a settled board the drop scan finds no empty row exactly when the
      top cell is occupied, so the game's full column and the computer's
      invalid column are the same thing. */
  lemma FullIffTopOccupied(b: Board, col: int)
    requires Settled(b) && 0 <= col < Cols
    ensures LandingRow(b, col) == -1 <==> !IsValidColumn(b, col)
  {
  }

  /** A column whose top cell is empty always has a landing row, settled or not. */
  lemma ValidColumnHasRoom(b: Board, col: int)
    requires IsValidColumn(b, col)
    ensures LandingRow(b, col) >= 0
  {
  }
}
