/** The computer opponent: a chain of deterministic checks (win, block,
    strategic move, preferred column), each simulating one drop on a copy of
    the board and scanning the four axes through the landing cell. The
    source's one call to a random number generator per move is the parameter
    `random`, a value in [0, 1). */
module ComputerPlayer {
  import opened Types
  import opened Lines
  import opened Grid

  /** The other colour, as the source computes it: anything but red maps to red. */
  function Opponent(p: Player): (o: Player)
    ensures o != NoPlayer && o != p
  {
    if p == Red then Yellow else Red
  }

  /** Red and yellow are each other's opponent. */
  lemma OpponentSwaps(p: Colour)
    ensures Opponent(Opponent(p)) == p
    ensures p == Red <==> Opponent(p) == Yellow
  {
  }

  /** The columns among 0..n-1 whose top cell is empty, in increasing order. */
  function ValidBelow(b: Board, n: int): (cols: seq<int>)
    requires 0 <= n <= Cols
    ensures forall i :: 0 <= i < |cols| ==> 0 <= cols[i] < n
    ensures forall i, j :: 0 <= i < j < |cols| ==> cols[i] < cols[j]
    ensures forall x :: x in cols <==> 0 <= x < n && IsValidColumn(b, x)
  {
    if n == 0 then []
    else ValidBelow(b, n - 1) + (if b[0][n - 1] == NoPlayer then [n - 1] else [])
  }

  /** Every column whose top cell is empty, in increasing order. */
  function ValidColumns(b: Board): (cols: seq<int>)
    ensures forall i, j :: 0 <= i < j < |cols| ==> cols[i] < cols[j]
    ensures forall x :: x in cols <==> IsValidColumn(b, x)
  {
    ValidBelow(b, Cols)
  }

  method GetValidColumns(board: Board) returns (validColumns: seq<int>)
    ensures validColumns == ValidColumns(board)
  {
    validColumns := [];
    for col := 0 to Cols
      invariant validColumns == ValidBelow(board, col)
    {
      if board[0][col] == NoPlayer {
        validColumns := validColumns + [col];
      }
    }
  }

  /** `Math.floor(random * n)`: the index drawn from random in [0, 1). */
  function RandomIndex(random: real, n: nat): (i: nat)
    requires 0.0 <= random < 1.0 && n > 0
    ensures i < n
  {
    var x := random * n as real;
    assert 0.0 <= x < n as real;
    x.Floor
  }

  /** The draw is uniform: index i is drawn exactly for the random values in
      [i / n, (i + 1) / n), a slice of [0, 1) of width 1 / n for every index. */
  lemma RandomIndexSlice(random: real, n: nat, i: nat)
    requires 0.0 <= random < 1.0 && n > 0
    ensures RandomIndex(random, n) == i <==> i as real / n as real <= random < (i + 1) as real / n as real
  {
    ScaleBound(i as real, random, n as real);
    ScaleBound((i + 1) as real, random, n as real);
  }

  /** Dividing both sides by a positive n keeps each comparison. */
  lemma ScaleBound(a: real, x: real, n: real)
    requires n > 0.0
    ensures a <= x * n <==> a / n <= x
    ensures x * n < a <==> x < a / n
  {
    assert (a / n) * n == a;
    assert (x * n) / n == x;
    if a / n <= x {
      assert (a / n) * n <= x * n;
    }
    if a <= x * n {
      assert a / n <= (x * n) / n;
    }
  }

  /** i / n lies in [0, 1) and scales back to i. */
  lemma Fraction(i: nat, n: nat)
    requires i < n
    ensures 0.0 <= i as real / n as real < 1.0
    ensures (i as real / n as real) * n as real == i as real
  {
  }

  /** Each valid column is drawn for some value of random. */
  lemma EveryValidColumnDrawable(b: Board, col: int)
    requires IsValidColumn(b, col)
    ensures exists random ::
      0.0 <= random < 1.0 && ValidColumns(b)[RandomIndex(random, |ValidColumns(b)|)] == col
  {
    var cols := ValidColumns(b);
    var i :| 0 <= i < |cols| && cols[i] == col;
    var n := |cols|;
    var random := i as real / n as real;
    Fraction(i, n);
    assert RandomIndex(random, n) == i;
  }

  method GetEasyModeMove(board: Board, random: real) returns (col: int)
    requires |ValidColumns(board)| > 0 && 0.0 <= random < 1.0
    ensures IsValidColumn(board, col)
    ensures col == ValidColumns(board)[RandomIndex(random, |ValidColumns(board)|)]
  {
    var validColumns := GetValidColumns(board);
    col := validColumns[RandomIndex(random, |validColumns|)];
  }

  // What a simulated drop of p's piece into col achieves.

  /** The piece lands and completes four in a row. */
  predicate WinsByDrop(b: Board, col: int, p: Player)
    requires 0 <= col < Cols
  {
    var row := LandingRow(b, col);
    row >= 0 && Wins(Place(b, row, col, p), row, col)
  }

  /** The piece lands and at least two axes through it carry a run of 3 of p. */
  predicate ThreatensByDrop(b: Board, col: int, p: Player)
    requires 0 <= col < Cols
  {
    var row := LandingRow(b, col);
    row >= 0 && ThreatCount(Place(b, row, col, p), row, col, p) >= 2
  }

  ghost predicate HasWinningColumn(b: Board, p: Player) {
    exists c :: IsValidColumn(b, c) && WinsByDrop(b, c, p)
  }

  /** col is the leftmost valid column where p wins at once. */
  ghost predicate IsFirstWinningColumn(b: Board, p: Player, col: int) {
    IsValidColumn(b, col) && WinsByDrop(b, col, p)
    && forall c :: 0 <= c < col && IsValidColumn(b, c) ==> !WinsByDrop(b, c, p)
  }

  ghost predicate HasStrategicColumn(b: Board, p: Player) {
    exists c :: IsValidColumn(b, c) && ThreatensByDrop(b, c, p)
  }

  /** col is the leftmost valid column whose drop makes two threats for p. */
  ghost predicate IsFirstStrategicColumn(b: Board, p: Player, col: int) {
    IsValidColumn(b, col) && ThreatensByDrop(b, col, p)
    && forall c :: 0 <= c < col && IsValidColumn(b, c) ==> !ThreatensByDrop(b, c, p)
  }

  /** The computer's own copy of the win test; it scans exactly as the game's. */
  method CheckWinner(board: Board, row: int, col: int) returns (won: bool)
    requires InBounds(row, col)
    ensures won <==> Wins(board, row, col)
  {
    var player := board[row][col];
    for a := 0 to |Axes|
      invariant forall i :: 0 <= i < a ==> AxisRun(board, row, col, Axes[i], player) < 4
    {
      var count := CountAxis(board, row, col, Axes[a], player);
      if count >= 4 {
        return true;
      }
    }
    return false;
  }

  /** The number of axes through (row, col) whose run of player's pieces,
      counting (row, col) itself, is at least 3 long. */
  method EvaluatePosition(board: Board, row: int, col: int, player: Player) returns (threats: int)
    ensures threats == ThreatCount(board, row, col, player)
    ensures 0 <= threats <= |Axes|
  {
    threats := 0;
    for a := 0 to |Axes|
      invariant threats == Threats(board, row, col, player, a)
    {
      var count := CountAxis(board, row, col, Axes[a], player);
      if count >= 3 {
        threats := threats + 1;
      }
    }
  }

  /** The simulated drop shared by the win and strategy searches: copy the
      board, scan up from the bottom row past occupied cells, and write
      player's piece into the cell found, if any. */
  method SimulateDrop(board: Board, col: int, player: Player) returns (tempBoard: Board, row: int)
    requires 0 <= col < Cols
    ensures row == LandingRow(board, col)
    ensures row >= 0 ==> InBounds(row, col) && tempBoard == Place(board, row, col, player)
  {
    tempBoard := board;
    row := Rows - 1;
    while row >= 0 && tempBoard[row][col] != NoPlayer
      invariant -1 <= row < Rows
      invariant forall r :: row < r < Rows ==> tempBoard[r][col] != NoPlayer
    {
      row := row - 1;
    }
    if row >= 0 {
      tempBoard := tempBoard[row := tempBoard[row][col := player]];
    }
  }

  /** In a strictly increasing list, a member below the i-th entry is one of
      the first i entries. */
  lemma EarlierEntry(cols: seq<int>, i: int, c: int)
    requires forall a, b :: 0 <= a < b < |cols| ==> cols[a] < cols[b]
    requires 0 <= i <= |cols| && c in cols && (i < |cols| ==> c < cols[i])
    ensures exists j :: 0 <= j < i && cols[j] == c
  {
    var j :| 0 <= j < |cols| && cols[j] == c;
  }

  /** The leftmost valid column where dropping player's piece wins at once,
      or None. The input board is a value and is never changed. */
  method FindWinningMove(board: Board, player: Player) returns (move: Option<int>)
    ensures move.Some? ==> IsFirstWinningColumn(board, player, move.value)
    ensures move.None? <==> !HasWinningColumn(board, player)
  {
    var validColumns := GetValidColumns(board);
    for i := 0 to |validColumns|
      invariant forall j :: 0 <= j < i ==> !WinsByDrop(board, validColumns[j], player)
    {
      var col := validColumns[i];
      var tempBoard, row := SimulateDrop(board, col, player);
      if row >= 0 {
        var won := CheckWinner(tempBoard, row, col);
        if won {
          forall c | 0 <= c < col && IsValidColumn(board, c)
            ensures !WinsByDrop(board, c, player)
          {
            EarlierEntry(validColumns, i, c);
          }
          return Some(col);
        }
      }
    }
    forall c | IsValidColumn(board, c)
      ensures !WinsByDrop(board, c, player)
    {
      EarlierEntry(validColumns, |validColumns|, c);
    }
    return None;
  }

  /** The leftmost valid column whose simulated drop gives player at least
      two axes with a run of 3, or None. */
  method FindStrategicMove(board: Board, player: Player) returns (move: Option<int>)
    ensures move.Some? ==> IsFirstStrategicColumn(board, player, move.value)
    ensures move.None? <==> !HasStrategicColumn(board, player)
  {
    var validColumns := GetValidColumns(board);
    for i := 0 to |validColumns|
      invariant forall j :: 0 <= j < i ==> !ThreatensByDrop(board, validColumns[j], player)
    {
      var col := validColumns[i];
      var tempBoard, row := SimulateDrop(board, col, player);
      if row >= 0 {
        var threats := EvaluatePosition(tempBoard, row, col, player);
        if threats >= 2 {
          forall c | 0 <= c < col && IsValidColumn(board, c)
            ensures !ThreatensByDrop(board, c, player)
          {
            EarlierEntry(validColumns, i, c);
          }
          return Some(col);
        }
      }
    }
    forall c | IsValidColumn(board, c)
      ensures !ThreatensByDrop(board, c, player)
    {
      EarlierEntry(validColumns, |validColumns|, c);
    }
    return None;
  }

  /** Medium priority: win, else block the opponent's win, else the centre
      column, else a random valid column. */
  ghost predicate MediumChoice(b: Board, p: Player, random: real, col: int)
    requires |ValidColumns(b)| > 0 && 0.0 <= random < 1.0
  {
    if HasWinningColumn(b, p) then IsFirstWinningColumn(b, p, col)
    else if HasWinningColumn(b, Opponent(p)) then IsFirstWinningColumn(b, Opponent(p), col)
    else if IsValidColumn(b, 3) then col == 3
    else col == ValidColumns(b)[RandomIndex(random, |ValidColumns(b)|)]
  }

  /** The hard tier's fallback order: centre first, then outwards. */
  const PreferredColumns: seq<int> := [3, 2, 4, 1, 5, 0, 6]

  /** A board with a valid column has a valid column in the preference order. */
  lemma PreferenceCoversColumns(b: Board)
    requires |ValidColumns(b)| > 0
    ensures exists i :: 0 <= i < |PreferredColumns| && IsValidColumn(b, PreferredColumns[i])
  {
    var c := ValidColumns(b)[0];
    assert c in ValidColumns(b);
    var i := if c == 3 then 0 else if c == 2 then 1 else if c == 4 then 2
      else if c == 1 then 3 else if c == 5 then 4 else if c == 0 then 5 else 6;
    assert PreferredColumns[i] == c;
  }

  /** col is the first valid column in the preference order. */
  ghost predicate FirstPreferred(b: Board, col: int) {
    exists i :: 0 <= i < |PreferredColumns| && PreferredColumns[i] == col && IsValidColumn(b, col)
      && forall j :: 0 <= j < i ==> !IsValidColumn(b, PreferredColumns[j])
  }

  /** Hard priority: win, else block, else the first strategic column, else
      the first valid column in the preference order. */
  ghost predicate HardChoice(b: Board, p: Player, col: int) {
    if HasWinningColumn(b, p) then IsFirstWinningColumn(b, p, col)
    else if HasWinningColumn(b, Opponent(p)) then IsFirstWinningColumn(b, Opponent(p), col)
    else if HasStrategicColumn(b, p) then IsFirstStrategicColumn(b, p, col)
    else FirstPreferred(b, col)
  }

  method GetMediumModeMove(board: Board, computerPlayer: Player, random: real) returns (col: int)
    requires |ValidColumns(board)| > 0 && 0.0 <= random < 1.0
    ensures IsValidColumn(board, col)
    ensures MediumChoice(board, computerPlayer, random, col)
  {
    var validColumns := GetValidColumns(board);

    var winningMove := FindWinningMove(board, computerPlayer);
    if winningMove.Some? {
      return winningMove.value;
    }

    var opponent := Opponent(computerPlayer);
    var blockingMove := FindWinningMove(board, opponent);
    if blockingMove.Some? {
      return blockingMove.value;
    }

    if 3 in validColumns {
      return 3;
    }

    return validColumns[RandomIndex(random, |validColumns|)];
  }

  method GetHardModeMove(board: Board, computerPlayer: Player) returns (col: int)
    requires |ValidColumns(board)| > 0
    ensures IsValidColumn(board, col)
    ensures HardChoice(board, computerPlayer, col)
  {
    var validColumns := GetValidColumns(board);

    var winningMove := FindWinningMove(board, computerPlayer);
    if winningMove.Some? {
      return winningMove.value;
    }

    var opponent := Opponent(computerPlayer);
    var blockingMove := FindWinningMove(board, opponent);
    if blockingMove.Some? {
      return blockingMove.value;
    }

    var strategicMove := FindStrategicMove(board, computerPlayer);
    if strategicMove.Some? {
      return strategicMove.value;
    }

    for i := 0 to |PreferredColumns|
      invariant forall j :: 0 <= j < i ==> !IsValidColumn(board, PreferredColumns[j])
    {
      var c := PreferredColumns[i];
      if c in validColumns {
        return c;
      }
    }

    // `return validColumns[0]` in the source: never reached, because the
    // preference order lists every column
    PreferenceCoversColumns(board);
    assert false;
  }

  /** The computer's move for a difficulty; anything but "hard", "medium" and
      "easy" plays as medium. */
  method GetMove(board: Board, computerPlayer: Player, difficulty: string, random: real) returns (col: int)
    requires |ValidColumns(board)| > 0 && 0.0 <= random < 1.0
    ensures IsValidColumn(board, col)
    ensures difficulty == "hard" ==> HardChoice(board, computerPlayer, col)
    ensures difficulty == "easy" ==> col == ValidColumns(board)[RandomIndex(random, |ValidColumns(board)|)]
    ensures difficulty != "hard" && difficulty != "easy" ==> MediumChoice(board, computerPlayer, random, col)
  {
    if difficulty == "hard" {
      col := GetHardModeMove(board, computerPlayer);
    } else if difficulty == "medium" {
      col := GetMediumModeMove(board, computerPlayer, random);
    } else if difficulty == "easy" {
      col := GetEasyModeMove(board, random);
    } else {
      col := GetMediumModeMove(board, computerPlayer, random);
    }
  }
}
