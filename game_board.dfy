/** The game component: the board, whose turn it is, the winner and the
    session scores, changed by dropping pieces and by the two reset buttons. */
module GameBoard {
  import opened Types
  import opened Lines
  import opened Grid

  /** The game's win test for the piece just placed at (lastRow, lastCol):
      on each axis, count the cell itself and the cells of its colour met
      walking outwards both ways; a count of 4 or more wins. */
  method CheckWinner(board: Board, lastRow: int, lastCol: int) returns (won: bool)
    requires InBounds(lastRow, lastCol)
    ensures won <==> Wins(board, lastRow, lastCol)
  {
    var currentColor := board[lastRow][lastCol];
    for a := 0 to |Axes|
      invariant forall i :: 0 <= i < a ==> AxisRun(board, lastRow, lastCol, Axes[i], currentColor) < 4
    {
      var count := CountAxis(board, lastRow, lastCol, Axes[a], currentColor);
      if count >= 4 {
        return true;
      }
    }
    return false;
  }

  /** The state of one game session. Moves are applied atomically, so the
      drop animation of the user interface is never in progress between calls. */
  class Game {
    var board: Board
    var currentPlayer: Colour
    var winner: Player
    var scores: Scores

    /** Pieces obey gravity, and a recorded winner is the player who made the
        last move (the turn does not pass after a winning move). */
    ghost predicate Valid()
      reads this
    {
      Settled(board) && (winner != NoPlayer ==> winner == currentPlayer)
    }

    /** A fresh session: empty board, red to move, no winner, no points. */
    constructor ()
      ensures Valid()
      ensures board == EmptyBoard() && currentPlayer == Red && winner == NoPlayer
      ensures scores == Scores(0, 0)
    {
      board := EmptyBoard();
      currentPlayer := Red;
      winner := NoPlayer;
      scores := Scores(0, 0);
      EmptyBoardSettled();
    }

    /** New game: empty board, red to move, no winner; the scores stay. */
    method ResetGame()
      modifies this
      ensures Valid()
      ensures board == EmptyBoard() && currentPlayer == Red && winner == NoPlayer
      ensures scores == old(scores)
    {
      board := EmptyBoard();
      currentPlayer := Red;
      winner := NoPlayer;
      EmptyBoardSettled();
    }

    /** Both scores back to zero; nothing else changes. */
    method ResetScores()
      requires Valid()
      modifies this
      ensures Valid()
      ensures scores == Scores(0, 0)
      ensures board == old(board) && currentPlayer == old(currentPlayer) && winner == old(winner)
    {
      scores := Scores(0, 0);
    }

    /** The current player drops a piece into column. Once the game has a
        winner, or when the column has no empty cell, nothing changes.
        Otherwise the piece lands in the lowest empty row of the column and
        every other cell stays; a winning move records the mover as winner and
        adds one to the mover's score only, any other move passes the turn. */
    method MakeMove(column: int)
      requires Valid() && 0 <= column < Cols
      modifies this
      ensures Valid()
      ensures old(winner) != NoPlayer || LandingRow(old(board), column) == -1 ==>
        board == old(board) && currentPlayer == old(currentPlayer)
        && winner == old(winner) && scores == old(scores)
      ensures old(winner) == NoPlayer && LandingRow(old(board), column) >= 0 ==>
        var row := LandingRow(old(board), column);
        board == Place(old(board), row, column, old(currentPlayer))
        && (Wins(board, row, column) ==>
              winner == old(currentPlayer) && currentPlayer == old(currentPlayer)
              && scores.red == old(scores).red + (if old(currentPlayer) == Red then 1 else 0)
              && scores.yellow == old(scores).yellow + (if old(currentPlayer) == Yellow then 1 else 0))
        && (!Wins(board, row, column) ==>
              winner == NoPlayer && scores == old(scores)
              && currentPlayer == (if old(currentPlayer) == Red then Yellow else Red))
      ensures LandingRow(old(board), column) == -1 <==> !IsValidColumn(old(board), column)
    {
      FullIffTopOccupied(board, column);
      if winner != NoPlayer {
        return;
      }

      var newBoard := board;
      var landingRow := -1;
      var row := Rows - 1;
      while row >= 0
        invariant -1 <= row < Rows && landingRow == -1
        invariant forall i :: row < i < Rows ==> newBoard[i][column] != NoPlayer
      {
        if newBoard[row][column] == NoPlayer {
          landingRow := row;
          break;
        }
        row := row - 1;
      }

      if landingRow == -1 {
        return;
      }
      assert landingRow == LandingRow(board, column);

      newBoard := newBoard[landingRow := newBoard[landingRow][column := currentPlayer]];
      DropKeepsSettled(board, column, currentPlayer);
      board := newBoard;

      var isWinner := CheckWinner(newBoard, landingRow, column);
      if isWinner {
        winner := currentPlayer;
        scores := if currentPlayer == Red then scores.(red := scores.red + 1) else scores.(yellow := scores.yellow + 1);
      } else {
        currentPlayer := if currentPlayer == Red then Yellow else Red;
      }
    }
  }
}
