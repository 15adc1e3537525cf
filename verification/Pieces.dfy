/** Pieces, squares and the 8x8 board of the chess engine.
    Row 0 is Black's home rank, row 7 White's; column 0 is the a-file.
    A cell is empty ("--" in the engine) or holds a coloured piece ("wp", "bK", ...). */
module Pieces {

  datatype Option<T> = None | Some(value: T)

  datatype Color = White | Black
  datatype Kind = Pawn | Knight | Bishop | Rook | Queen | King
  datatype Cell = Empty | Piece(color: Color, kind: Kind)

  /** A (row, col) pair; not necessarily on the board. */
  datatype Square = Square(row: int, col: int)

  type Board = seq<seq<Cell>>

  function Opponent(c: Color): (o: Color)
    ensures o != c
  {
    if c == White then Black else White
  }

  /** The colour whose turn it is, from the engine's `whiteToMove` flag. */
  function ColorToMove(whiteToMove: bool): Color
  {
    if whiteToMove then White else Black
  }

  /** The engine tests the colour of a cell by its first character: an empty
      cell has no colour. */
  predicate IsColor(cell: Cell, c: Color)
  {
    cell.Piece? && cell.color == c
  }

  predicate OnBoard(sq: Square)
  {
    0 <= sq.row < 8 && 0 <= sq.col < 8
  }

  predicate IsBoard(b: Board)
  {
    |b| == 8 && forall r :: 0 <= r < 8 ==> |b[r]| == 8
  }

  function At(b: Board, sq: Square): Cell
    requires IsBoard(b) && OnBoard(sq)
  {
    b[sq.row][sq.col]
  }

  /** `board[row][col] = x`: writes one cell and leaves the other 63 alone. */
  function Put(b: Board, sq: Square, x: Cell): (r: Board)
    requires IsBoard(b) && OnBoard(sq)
    ensures IsBoard(r)
    ensures At(r, sq) == x
  {
    b[sq.row := b[sq.row][sq.col := x]]
  }

  /** Writing one cell leaves the other 63 alone. */
  lemma PutLeavesOthers(b: Board, sq: Square, x: Cell, q: Square)
    requires IsBoard(b) && OnBoard(sq) && OnBoard(q) && q != sq
    ensures At(Put(b, sq, x), q) == At(b, q)
  {
  }

  /** Two boards that agree on every square are the same board. */
  lemma BoardsEqual(a: Board, b: Board)
    requires IsBoard(a) && IsBoard(b)
    requires forall sq :: OnBoard(sq) ==> At(a, sq) == At(b, sq)
    ensures a == b
  {
    forall r | 0 <= r < 8
      ensures a[r] == b[r]
    {
      forall c | 0 <= c < 8
        ensures a[r][c] == b[r][c]
      {
        assert At(a, Square(r, c)) == At(b, Square(r, c));
      }
    }
  }

  /** The row on which a pawn of colour `c` promotes. */
  function FarRow(c: Color): int
  {
    if c == White then 0 else 7
  }

  /** No pawn stands on the row where it would have promoted.  The pawn
      generator reads the row in front of a pawn without a bounds check and
      relies on this. */
  predicate PawnsInside(b: Board)
    requires IsBoard(b)
  {
    forall c :: 0 <= c < 8 ==> b[0][c] != Piece(White, Pawn) && b[7][c] != Piece(Black, Pawn)
  }

  /** Home-rank layout, a-file to h-file. */
  function BackRank(c: int): Kind
    requires 0 <= c < 8
  {
    [Rook, Knight, Bishop, Queen, King, Bishop, Knight, Rook][c]
  }

  function InitialCell(r: int, c: int): Cell
    requires 0 <= r < 8 && 0 <= c < 8
  {
    if r == 0 then Piece(Black, BackRank(c))
    else if r == 1 then Piece(Black, Pawn)
    else if r == 6 then Piece(White, Pawn)
    else if r == 7 then Piece(White, BackRank(c))
    else Empty
  }

  /** The standard starting position; no pawn stands on a promotion row. */
  function InitialBoard(): (b: Board)
    ensures IsBoard(b)
    ensures forall r, c :: 0 <= r < 8 && 0 <= c < 8 ==> b[r][c] == InitialCell(r, c)
    ensures PawnsInside(b)
  {
    seq(8, r requires 0 <= r < 8 => seq(8, c requires 0 <= c < 8 => InitialCell(r, c)))
  }

  /** Each side has exactly one king in the starting position, on the e-file. */
  lemma InitialBoardShape()
    ensures forall sq :: OnBoard(sq) && At(InitialBoard(), sq) == Piece(White, King) <==> sq == Square(7, 4)
    ensures forall sq :: OnBoard(sq) && At(InitialBoard(), sq) == Piece(Black, King) <==> sq == Square(0, 4)
  {
    var b := InitialBoard();
    forall sq | OnBoard(sq) && At(b, sq).Piece? && At(b, sq).kind == King
      ensures sq.col == 4 && (sq.row == 0 || sq.row == 7)
    {
      assert sq.row == 0 || sq.row == 7;
      assert BackRank(sq.col) == King;
    }
  }
}
