/** The four-axis run scan through one cell: the win test of both `checkWinner`s
    and the computer's `evaluatePosition` count the same runs. */
module Lines {
  import opened Types

  /** A step between neighbouring cells. */
  datatype Dir = Dir(dr: int, dc: int)

  /** A direction of the scan: deltas in -1..1, not both zero. */
  type Step = d: Dir | -1 <= d.dr <= 1 && -1 <= d.dc <= 1 && d != Dir(0, 0) witness Dir(0, 1)

  function Reverse(d: Step): Step {
    Dir(-d.dr, -d.dc)
  }

  /** One line of the scan, as the pair of directions walked from the cell. */
  datatype Axis = Axis(dir1: Step, dir2: Step)

  /** The axes scanned: horizontal, vertical, and the two diagonals. */
  const Axes: seq<Axis> := [
    Axis(Dir(0, 1), Dir(0, -1)),
    Axis(Dir(1, 0), Dir(-1, 0)),
    Axis(Dir(1, 1), Dir(-1, -1)),
    Axis(Dir(1, -1), Dir(-1, 1))
  ]

  /** The second direction of every axis is the first one reversed. */
  lemma AxesAreLines(i: int)
    requires 0 <= i < |Axes|
    ensures Axes[i].dir2 == Reverse(Axes[i].dir1)
  {
    if i == 0 {
    } else if i == 1 {
    } else if i == 2 {
    } else {
    }
  }

  /** How many positions a walk from coordinate x with delta d can still visit in 0..n-1. */
  function Room(x: int, d: int, n: int): nat {
    if d == 1 && x < n then n - x else if d == -1 && x >= 0 then x + 1 else 0
  }

  /** Termination measure of a walk from (r, c) in direction d. */
  function Reach(r: int, c: int, d: Step): nat {
    Room(r, d.dr, Rows) + Room(c, d.dc, Cols)
  }

  /** (r, c) is on the board and holds colour. */
  predicate Holds(b: Board, r: int, c: int, colour: Player) {
    InBounds(r, c) && b[r][c] == colour
  }

  /** The number of consecutive cells holding colour met by walking from (r, c)
      in direction d, (r, c) included; the walk stops at the board's edge. */
  function Ray(b: Board, r: int, c: int, d: Step, colour: Player): nat
    decreases Reach(r, c, d)
  {
    if Holds(b, r, c, colour) then 1 + Ray(b, r + d.dr, c + d.dc, d, colour) else 0
  }

  /** The count one axis contributes: the cell (r, c) itself, plus the cells of
      colour met walking outwards from it in each of the axis's two directions. */
  function AxisRun(b: Board, r: int, c: int, axis: Axis, colour: Player): nat {
    1 + Ray(b, r + axis.dir1.dr, c + axis.dir1.dc, axis.dir1, colour)
      + Ray(b, r + axis.dir2.dr, c + axis.dir2.dc, axis.dir2, colour)
  }

  /** A proof step only: AxisRun unfolded into its two walks, as a separate
      fact so that callers need not unfold the definition themselves. */
  lemma AxisSplit(b: Board, r: int, c: int, axis: Axis, colour: Player)
    ensures AxisRun(b, r, c, axis, colour) == 1 + Ray(b, r + axis.dir1.dr, c + axis.dir1.dc, axis.dir1, colour)
      + Ray(b, r + axis.dir2.dr, c + axis.dir2.dc, axis.dir2, colour)
  {
  }

  /** One walk of the scan: from (r0, c0), step in direction d while the cell
      is on the board and holds colour, counting the cells passed. */
  method Walk(board: Board, r0: int, c0: int, d: Step, colour: Player) returns (count: int)
    ensures count == Ray(board, r0, c0, d, colour)
  {
    count := 0;
    var r, c := r0, c0;
    while r >= 0 && r < Rows && c >= 0 && c < Cols && board[r][c] == colour
      invariant count + Ray(board, r, c, d, colour) == Ray(board, r0, c0, d, colour)
      decreases Ray(board, r, c, d, colour)
    {
      count := count + 1;
      r := r + d.dr;
      c := c + d.dc;
    }
  }

  /** The count of one axis: 1 for (row, col) itself, plus a walk outwards in
      each of the axis's two directions, starting next to (row, col). */
  method CountAxis(board: Board, row: int, col: int, axis: Axis, colour: Player) returns (count: int)
    ensures count == AxisRun(board, row, col, axis, colour)
  {
    count := 1;
    for k := 0 to 2
      invariant count == 1
        + (if k >= 1 then Ray(board, row + axis.dir1.dr, col + axis.dir1.dc, axis.dir1, colour) else 0)
        + (if k >= 2 then Ray(board, row + axis.dir2.dr, col + axis.dir2.dc, axis.dir2, colour) else 0)
    {
      var d := if k == 0 then axis.dir1 else axis.dir2;
      var walked := Walk(board, row + d.dr, col + d.dc, d, colour);
      count := count + walked;
    }
  }

  /** The win test: some axis through (r, c) counts at least four cells of the
      colour found at (r, c). */
  predicate Wins(b: Board, r: int, c: int)
    requires InBounds(r, c)
  {
    exists i :: 0 <= i < |Axes| && AxisRun(b, r, c, Axes[i], b[r][c]) >= 4
  }

  /** The number of axes among the first n whose run of colour through (r, c)
      is at least 3 long. */
  function Threats(b: Board, r: int, c: int, colour: Player, n: int): (t: nat)
    requires 0 <= n <= |Axes|
    ensures t <= n
  {
    if n == 0 then 0
    else Threats(b, r, c, colour, n - 1) + (if AxisRun(b, r, c, Axes[n - 1], colour) >= 3 then 1 else 0)
  }

  /** Some threat among the first n axes means some axis carries a run of 3,
      and n threats means every one of them does. */
  lemma {:induction false} OneThreat(b: Board, r: int, c: int, colour: Player, n: int)
    requires 0 <= n <= |Axes|
    ensures Threats(b, r, c, colour, n) > 0 <==> exists i :: 0 <= i < n && AxisRun(b, r, c, Axes[i], colour) >= 3
    ensures Threats(b, r, c, colour, n) == n <==> forall i :: 0 <= i < n ==> AxisRun(b, r, c, Axes[i], colour) >= 3
  {
    if n > 0 {
      OneThreat(b, r, c, colour, n - 1);
    }
  }

  /** What `evaluatePosition` returns: the number of the four axes whose run of
      colour through (r, c) is at least 3 long. */
  function ThreatCount(b: Board, r: int, c: int, colour: Player): (t: nat)
    ensures t <= |Axes|
  {
    Threats(b, r, c, colour, |Axes|)
  }

  /** At least two threats means two different axes each carrying a run of 3. */
  lemma {:induction false} TwoThreats(b: Board, r: int, c: int, colour: Player, n: int)
    requires 0 <= n <= |Axes|
    ensures Threats(b, r, c, colour, n) >= 2 <==>
      exists i, j :: 0 <= i < j < n && AxisRun(b, r, c, Axes[i], colour) >= 3 && AxisRun(b, r, c, Axes[j], colour) >= 3
  {
    if n > 0 {
      TwoThreats(b, r, c, colour, n - 1);
      OneThreat(b, r, c, colour, n - 1);
      if AxisRun(b, r, c, Axes[n - 1], colour) >= 3 && Threats(b, r, c, colour, n - 1) >= 1 {
        var i :| 0 <= i < n - 1 && AxisRun(b, r, c, Axes[i], colour) >= 3;
        assert 0 <= i < n - 1 < n;
      }
    }
  }

  // A reference definition of four in a row, independent of the scan.

  /** The offset of k steps of x, for a step x of -1, 0 or 1 (k * x, kept linear). */
  function Scale(k: int, x: int): int
    requires -1 <= x <= 1
  {
    if x == 1 then k else if x == -1 then -k else 0
  }

  /** The cell k steps from (r, c) in direction d is on the board and holds colour. */
  predicate At(b: Board, r: int, c: int, d: Step, k: int, colour: Player) {
    Holds(b, r + Scale(k, d.dr), c + Scale(k, d.dc), colour)
  }

  /** The four consecutive cells s, s + 1, s + 2 and s + 3 steps from (r, c)
      in direction d all hold colour. */
  ghost predicate Window(b: Board, r: int, c: int, d: Step, s: int, colour: Player) {
    At(b, r, c, d, s, colour) && At(b, r, c, d, s + 1, colour)
    && At(b, r, c, d, s + 2, colour) && At(b, r, c, d, s + 3, colour)
  }

  /** Some window of four along direction d contains (r, c), the cell zero
      steps away: the window starts 3, 2, 1 or 0 steps behind it. */
  ghost predicate WindowThrough(b: Board, r: int, c: int, d: Step, colour: Player) {
    Window(b, r, c, d, -3, colour) || Window(b, r, c, d, -2, colour)
    || Window(b, r, c, d, -1, colour) || Window(b, r, c, d, 0, colour)
  }

  /** Four cells in a row of the colour at (r, c), horizontally, vertically or
      diagonally, one of which is (r, c). */
  ghost predicate FourInARow(b: Board, r: int, c: int)
    requires InBounds(r, c)
  {
    exists i :: 0 <= i < |Axes| && WindowThrough(b, r, c, Axes[i].dir1, b[r][c])
  }

  /** The cell k steps from (r, c), named by its coordinates. */
  lemma AtCell(b: Board, r: int, c: int, d: Step, k: int, colour: Player, r': int, c': int)
    requires r' == r + Scale(k, d.dr) && c' == c + Scale(k, d.dc)
    ensures At(b, r, c, d, k, colour) == Holds(b, r', c', colour)
  {
  }

  /** A walk reaches 1, 2 or 3 exactly when it meets that many cells of the
      colour, one step apart. */
  lemma RayPrefix(b: Board, r: int, c: int, d: Step, colour: Player)
    ensures Ray(b, r, c, d, colour) >= 1 <==> Holds(b, r, c, colour)
    ensures Ray(b, r, c, d, colour) >= 2 <==> Holds(b, r, c, colour) && Holds(b, r + d.dr, c + d.dc, colour)
    ensures Ray(b, r, c, d, colour) >= 3 <==>
      Holds(b, r, c, colour) && Holds(b, r + d.dr, c + d.dc, colour) && Holds(b, r + d.dr + d.dr, c + d.dc + d.dc, colour)
  {
    assert Ray(b, r + d.dr, c + d.dc, d, colour) ==
      if Holds(b, r + d.dr, c + d.dc, colour) then 1 + Ray(b, r + d.dr + d.dr, c + d.dc + d.dc, d, colour) else 0;
  }

  /** The walk ahead of (r, c) reaches 1, 2 or 3 exactly when the cells 1, 2
      and 3 steps ahead hold the colour, in that order. */
  lemma AheadCells(b: Board, r: int, c: int, d: Step, colour: Player)
    ensures Ray(b, r + d.dr, c + d.dc, d, colour) >= 1 <==> At(b, r, c, d, 1, colour)
    ensures Ray(b, r + d.dr, c + d.dc, d, colour) >= 2 <==> At(b, r, c, d, 1, colour) && At(b, r, c, d, 2, colour)
    ensures Ray(b, r + d.dr, c + d.dc, d, colour) >= 3 <==>
      At(b, r, c, d, 1, colour) && At(b, r, c, d, 2, colour) && At(b, r, c, d, 3, colour)
  {
    RayPrefix(b, r + d.dr, c + d.dc, d, colour);
    AtCell(b, r, c, d, 1, colour, r + d.dr, c + d.dc);
    AtCell(b, r, c, d, 2, colour, r + d.dr + d.dr, c + d.dc + d.dc);
    AtCell(b, r, c, d, 3, colour, r + d.dr + d.dr + d.dr, c + d.dc + d.dc + d.dc);
  }

  /** The walk behind (r, c) reaches 1, 2 or 3 exactly when the cells 1, 2 and
      3 steps behind hold the colour, in that order. */
  lemma BehindCells(b: Board, r: int, c: int, d: Step, e: Step, colour: Player)
    requires e == Reverse(d)
    ensures Ray(b, r + e.dr, c + e.dc, e, colour) >= 1 <==> At(b, r, c, d, -1, colour)
    ensures Ray(b, r + e.dr, c + e.dc, e, colour) >= 2 <==> At(b, r, c, d, -1, colour) && At(b, r, c, d, -2, colour)
    ensures Ray(b, r + e.dr, c + e.dc, e, colour) >= 3 <==>
      At(b, r, c, d, -1, colour) && At(b, r, c, d, -2, colour) && At(b, r, c, d, -3, colour)
  {
    RayPrefix(b, r + e.dr, c + e.dc, e, colour);
    AtCell(b, r, c, d, -1, colour, r + e.dr, c + e.dc);
    AtCell(b, r, c, d, -2, colour, r + e.dr + e.dr, c + e.dc + e.dc);
    AtCell(b, r, c, d, -3, colour, r + e.dr + e.dr + e.dr, c + e.dc + e.dc + e.dc);
  }

  /** A window of four through the cell zero steps away starts 3, 2, 1 or 0
      steps behind it. */
  lemma WindowCases(b: Board, r: int, c: int, d: Step, colour: Player)
    requires At(b, r, c, d, 0, colour)
    ensures WindowThrough(b, r, c, d, colour) <==>
      (At(b, r, c, d, -3, colour) && At(b, r, c, d, -2, colour) && At(b, r, c, d, -1, colour))
      || (At(b, r, c, d, -2, colour) && At(b, r, c, d, -1, colour) && At(b, r, c, d, 1, colour))
      || (At(b, r, c, d, -1, colour) && At(b, r, c, d, 1, colour) && At(b, r, c, d, 2, colour))
      || (At(b, r, c, d, 1, colour) && At(b, r, c, d, 2, colour) && At(b, r, c, d, 3, colour))
  {
  }

  /** The counting argument on one axis, over plain values: a run of the
      cell itself plus two walks, each walk described by the cells it may
      meet, reaches 4 exactly when three neighbouring cells around the start
      complete a window. */
  lemma RunsMeet(run: nat, ahead: nat, behind: nat, window: bool,
                 f1: bool, f2: bool, f3: bool, g1: bool, g2: bool, g3: bool)
    requires run == 1 + ahead + behind
    requires (ahead >= 1 <==> f1) && (ahead >= 2 <==> f1 && f2) && (ahead >= 3 <==> f1 && f2 && f3)
    requires (behind >= 1 <==> g1) && (behind >= 2 <==> g1 && g2) && (behind >= 3 <==> g1 && g2 && g3)
    requires window <==> (g3 && g2 && g1) || (g2 && g1 && f1) || (g1 && f1 && f2) || (f1 && f2 && f3)
    ensures run >= 4 <==> window
  {
  }

  /** On one line, the cell itself and the two walks from it along d and
      back count at least four exactly when the cell lies in a window of four
      cells of its colour. */
  lemma AxisWinIsWindow(b: Board, r: int, c: int, axis: Axis, colour: Player)
    requires axis.dir2 == Reverse(axis.dir1) && Holds(b, r, c, colour)
    ensures AxisRun(b, r, c, axis, colour) >= 4 <==> WindowThrough(b, r, c, axis.dir1, colour)
  {
    AxisSplit(b, r, c, axis, colour);
    RaysMakeWindow(b, r, c, axis.dir1, axis.dir2, colour);
  }

  /** The same on the two walks of a line, e being d reversed. */
  lemma RaysMakeWindow(b: Board, r: int, c: int, d: Step, e: Step, colour: Player)
    requires e == Reverse(d) && Holds(b, r, c, colour)
    ensures 1 + Ray(b, r + d.dr, c + d.dc, d, colour) + Ray(b, r + e.dr, c + e.dc, e, colour) >= 4
      <==> WindowThrough(b, r, c, d, colour)
  {
    AheadCells(b, r, c, d, colour);
    BehindCells(b, r, c, d, e, colour);
    AtCell(b, r, c, d, 0, colour, r, c);
    WindowCases(b, r, c, d, colour);
    RunsMeet(1 + Ray(b, r + d.dr, c + d.dc, d, colour) + Ray(b, r + e.dr, c + e.dc, e, colour),
      Ray(b, r + d.dr, c + d.dc, d, colour), Ray(b, r + e.dr, c + e.dc, e, colour),
      WindowThrough(b, r, c, d, colour),
      At(b, r, c, d, 1, colour), At(b, r, c, d, 2, colour), At(b, r, c, d, 3, colour),
      At(b, r, c, d, -1, colour), At(b, r, c, d, -2, colour), At(b, r, c, d, -3, colour));
  }

  /** The scan's win test agrees with the reference definition. */
  lemma WinsIffFourInARow(b: Board, r: int, c: int)
    requires InBounds(r, c)
    ensures Wins(b, r, c) <==> FourInARow(b, r, c)
  {
    forall i | 0 <= i < |Axes|
      ensures AxisRun(b, r, c, Axes[i], b[r][c]) >= 4 <==> WindowThrough(b, r, c, Axes[i].dir1, b[r][c])
    {
      AxesAreLines(i);
      AxisWinIsWindow(b, r, c, Axes[i], b[r][c]);
    }
  }

  /** A walk that moves across columns meets no more cells than there are
      columns ahead of it. */
  lemma {:induction false} RayWithinColumns(b: Board, r: int, c: int, d: Step, colour: Player)
    requires d.dc != 0
    ensures Ray(b, r, c, d, colour) <= Room(c, d.dc, Cols)
    decreases Ray(b, r, c, d, colour)
  {
    if Holds(b, r, c, colour) {
      RayWithinColumns(b, r + d.dr, c + d.dc, d, colour);
    }
  }

  /** A walk that moves across rows meets no more cells than there are rows
      ahead of it. */
  lemma {:induction false} RayWithinRows(b: Board, r: int, c: int, d: Step, colour: Player)
    requires d.dr != 0
    ensures Ray(b, r, c, d, colour) <= Room(r, d.dr, Rows)
    decreases Ray(b, r, c, d, colour)
  {
    if Holds(b, r, c, colour) {
      RayWithinRows(b, r + d.dr, c + d.dc, d, colour);
    }
  }

  /** From a coordinate inside 0..n-1, the room ahead and the room behind
      together leave out only the coordinate itself. */
  lemma RoomBothWays(x: int, dx: int, ex: int, n: int)
    requires 0 <= x < n && (dx == 1 || dx == -1) && ex == -dx
    ensures Room(x + dx, dx, n) + Room(x + ex, ex, n) == n - 1
  {
  }

  /** The count along a line through a cell of the board is between 1 and 7. */
  lemma LineWithinBoard(b: Board, r: int, c: int, axis: Axis, colour: Player)
    requires InBounds(r, c) && axis.dir2 == Reverse(axis.dir1)
    ensures 1 <= AxisRun(b, r, c, axis, colour) <= Cols
  {
    AxisSplit(b, r, c, axis, colour);
    RaysWithinBoard(b, r, c, axis.dir1, axis.dir2, colour);
  }

  /** The same on the two walks of a line, e being d reversed. */
  lemma RaysWithinBoard(b: Board, r: int, c: int, d: Step, e: Step, colour: Player)
    requires InBounds(r, c) && e == Reverse(d)
    ensures 1 + Ray(b, r + d.dr, c + d.dc, d, colour) + Ray(b, r + e.dr, c + e.dc, e, colour) <= Cols
  {
    if d.dc != 0 {
      RaysAcrossColumns(b, r, c, d, e, colour);
    } else {
      RaysAcrossRows(b, r, c, d, e, colour);
    }
  }

  /** The bound for a line that moves across columns. */
  lemma RaysAcrossColumns(b: Board, r: int, c: int, d: Step, e: Step, colour: Player)
    requires InBounds(r, c) && e == Reverse(d) && d.dc != 0
    ensures 1 + Ray(b, r + d.dr, c + d.dc, d, colour) + Ray(b, r + e.dr, c + e.dc, e, colour) <= Cols
  {
    RayWithinColumns(b, r + d.dr, c + d.dc, d, colour);
    RayWithinColumns(b, r + e.dr, c + e.dc, e, colour);
    RoomBothWays(c, d.dc, e.dc, Cols);
  }

  /** The bound for the vertical line, which moves across rows only: at most
      the six rows. */
  lemma RaysAcrossRows(b: Board, r: int, c: int, d: Step, e: Step, colour: Player)
    requires InBounds(r, c) && e == Reverse(d) && d.dc == 0
    ensures 1 + Ray(b, r + d.dr, c + d.dc, d, colour) + Ray(b, r + e.dr, c + e.dc, e, colour) <= Rows
  {
    RayWithinRows(b, r + d.dr, c + d.dc, d, colour);
    RayWithinRows(b, r + e.dr, c + e.dc, e, colour);
    RoomBothWays(r, d.dr, e.dr, Rows);
  }

  /** Every run the scan counts through a cell of the board is between 1 and 7. */
  lemma AxisRunBounds(b: Board, r: int, c: int, i: int, colour: Player)
    requires InBounds(r, c) && 0 <= i < |Axes|
    ensures 1 <= AxisRun(b, r, c, Axes[i], colour) <= Cols
  {
    AxesAreLines(i);
    LineWithinBoard(b, r, c, Axes[i], colour);
  }
}
