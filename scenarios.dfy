module Scenarios {
  import opened Types
  import opened Lines
  import opened Grid
  import opened ComputerPlayer

  /** Four red pieces across the bottom row, columns 0 to 3. */
  function BottomFour(): (b: Board)
  {
    Place(Place(Place(Place(EmptyBoard(), 5, 0, Red), 5, 1, Red), 5, 2, Red), 5, 3, Red)
  }

  /** The last of them wins, by the scan and by the reference definition. */
  lemma BottomFourWins()
    ensures Wins(BottomFour(), 5, 3)
    ensures FourInARow(BottomFour(), 5, 3)
  {
    var b := BottomFour();
    assert b[5][0] == Red && b[5][1] == Red && b[5][2] == Red && b[5][3] == Red;
    assert Window(b, 5, 3, Axes[0].dir1, -3, Red);
    WinsIffFourInARow(b, 5, 3);
  }

  /** A yellow piece alone in the bottom-left corner. */
  function CornerPiece(): (b: Board)
  {
    Place(EmptyBoard(), 5, 0, Yellow)
  }

  /** The corner piece with a second yellow piece beside it, at (5, 1). */
  function PairBoard(): (b: Board)
  {
    Place(CornerPiece(), 5, 1, Yellow)
  }

  /** Through (5, 1) of the pair board, the horizontal axis counts 2 and
      every other axis counts 1. */
  lemma PairAxis(i: int)
    requires 0 <= i < |Axes|
    ensures AxisRun(PairBoard(), 5, 1, Axes[i], Yellow) == if i == 0 then 2 else 1
  {
    var b := PairBoard();
    assert b[5][0] == Yellow && b[5][2] == NoPlayer && b[4][0] == NoPlayer && b[4][1] == NoPlayer && b[4][2] == NoPlayer;
    AxisSplit(b, 5, 1, Axes[i], Yellow);
    if i == 0 {
      assert Ray(b, 5, 0, Dir(0, -1), Yellow) == 1 + Ray(b, 5, -1, Dir(0, -1), Yellow);
    }
  }

  /** Dropping yellow beside the corner piece lands at (5, 1) and forms a
      horizontal pair, a run of 2, which does not make the column strategic:
      no axis through the new piece counts 3. */
  lemma PairIsNotStrategic()
    ensures LandingRow(CornerPiece(), 1) == 5
    ensures AxisRun(PairBoard(), 5, 1, Axes[0], Yellow) == 2
    ensures !ThreatensByDrop(CornerPiece(), 1, Yellow)
  {
    forall i | 0 <= i < |Axes|
      ensures AxisRun(PairBoard(), 5, 1, Axes[i], Yellow) < 3
    {
      PairAxis(i);
    }
    PairAxis(0);
    OneThreat(PairBoard(), 5, 1, Yellow, |Axes|);
  }
}
