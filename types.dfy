/** Cells, boards and scores of the Connect-Four game. */
module Types {

  /** The content of a cell, and also a player: `'red' | 'yellow' | null`,
      with `null` written NoPlayer. */
  datatype Player = NoPlayer | Red | Yellow

  /** A player who can move: the type of the game's `currentPlayer`. */
  type Colour = p: Player | p != NoPlayer witness Red

  const Rows: int := 6
  const Cols: int := 7

  /** The fixed grid, row 0 at the top and row 5 at the bottom. */
  type Board = b: seq<seq<Player>> | |b| == Rows && forall r | 0 <= r < |b| :: |b[r]| == Cols
    witness seq(6, _ => seq(7, _ => NoPlayer))

  /** Games won by each colour in this session. */
  datatype Scores = Scores(red: nat, yellow: nat)

  datatype Option<T> = None | Some(value: T)

  predicate InBounds(r: int, c: int) {
    0 <= r < Rows && 0 <= c < Cols
  }
}
