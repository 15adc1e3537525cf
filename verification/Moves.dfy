/** One ply: the value the engine builds for every candidate move and stores
    in its move log once the move is played. */
module Moves {
  import opened Pieces

  datatype Move = Move(startRow: int, startCol: int, endRow: int, endCol: int,
                       pieceMoved: Cell, pieceCaptured: Cell,
                       isPawnPromotion: bool, isEnpassantMove: bool)
  {
    function Start(): Square { Square(startRow, startCol) }

    function End(): Square { Square(endRow, endCol) }

    /** The identifier that move equality compares: one decimal digit per coordinate. */
    function MoveID(): int
    {
      startRow * 1000 + startCol * 100 + endRow * 10 + endCol
    }

    /** Move equality, as the engine and its user interface use it: for moves
        with on-board coordinates, the same two squares; the pieces and flags
        a move carries play no part. */
    predicate Equals(other: Move)
      ensures OnBoard(Start()) && OnBoard(End()) && OnBoard(other.Start()) && OnBoard(other.End()) ==>
                (Equals(other) <==> Start() == other.Start() && End() == other.End())
    {
      MoveID() == other.MoveID()
    }

    /** Coordinate notation: start square then end square, each written as
        file letter then rank digit ("e2e4"). */
    function ChessNotation(): (s: string)
      requires OnBoard(Start()) && OnBoard(End())
      ensures |s| == 4
      ensures s[0] == ('a' as int + startCol) as char && s[1] == ('8' as int - startRow) as char
      ensures s[2] == ('a' as int + endCol) as char && s[3] == ('8' as int - endRow) as char
      ensures ParseNotation(s) == Some((Start(), End()))
    {
      RankFile(startRow, startCol) + RankFile(endRow, endCol)
    }
  }

  /** A pawn of the piece's own colour standing on that colour's far row. */
  predicate PromotesOn(piece: Cell, row: int)
  {
    piece.Piece? && piece.kind == Pawn && row == FarRow(piece.color)
  }

  /** The move constructor: the moved and captured pieces are read from the
      board snapshot; an en-passant capture takes the opposing pawn, which
      does not stand on the end square. */
  function NewMove(start: Square, end: Square, board: Board, isEnpassantMove: bool): (m: Move)
    requires IsBoard(board) && OnBoard(start) && OnBoard(end)
    ensures m.Start() == start && m.End() == end && m.isEnpassantMove == isEnpassantMove
    ensures m.pieceMoved == At(board, start)
    ensures !isEnpassantMove ==> m.pieceCaptured == At(board, end)
    ensures isEnpassantMove && m.pieceMoved.Piece? && m.pieceMoved.kind == Pawn ==>
              m.pieceCaptured == Piece(Opponent(m.pieceMoved.color), Pawn)
    ensures m.isPawnPromotion <==> PromotesOn(m.pieceMoved, end.row)
  {
    var moved := At(board, start);
    var promotion := (moved == Piece(White, Pawn) && end.row == 0) || (moved == Piece(Black, Pawn) && end.row == 7);
    var captured :=
      if isEnpassantMove then (if moved == Piece(Black, Pawn) then Piece(White, Pawn) else Piece(Black, Pawn))
      else At(board, end);
    Move(start.row, start.col, end.row, end.col, moved, captured, promotion, isEnpassantMove)
  }

  // The rank and file tables.  The engine keeps the tables from rank and
  // file characters to rows and columns and derives the opposite tables by
  // swapping keys and values.

  function FileToCol(f: char): (c: Option<int>)
    ensures c.Some? <==> 'a' <= f <= 'h'
    ensures c.Some? ==> 0 <= c.value < 8
  {
    if 'a' <= f <= 'h' then Some(f as int - 'a' as int) else None
  }

  function RankToRow(k: char): (r: Option<int>)
    ensures r.Some? <==> '1' <= k <= '8'
    ensures r.Some? ==> 0 <= r.value < 8
  {
    if '1' <= k <= '8' then Some('8' as int - k as int) else None
  }

  function ColToFile(c: int): (f: char)
    requires 0 <= c < 8
    ensures FileToCol(f) == Some(c)
  {
    ('a' as int + c) as char
  }

  function RowToRank(r: int): (k: char)
    requires 0 <= r < 8
    ensures RankToRow(k) == Some(r)
  {
    ('8' as int - r) as char
  }

  /** The two tables are mutually inverse in the other direction too. */
  lemma TablesInverse(f: char, k: char)
    ensures FileToCol(f).Some? ==> ColToFile(FileToCol(f).value) == f
    ensures RankToRow(k).Some? ==> RowToRank(RankToRow(k).value) == k
  {
  }

  function RankFile(r: int, c: int): (s: string)
    requires 0 <= r < 8 && 0 <= c < 8
    ensures |s| == 2 && ParseSquare(s) == Some(Square(r, c))
  {
    [ColToFile(c), RowToRank(r)]
  }

  /** Reads a square written as file letter then rank digit. */
  function ParseSquare(s: string): (sq: Option<Square>)
    requires |s| == 2
    ensures sq.Some? ==> OnBoard(sq.value)
  {
    match (FileToCol(s[0]), RankToRow(s[1]))
    case (Some(c), Some(r)) => Some(Square(r, c))
    case _ => None
  }

  function ParseNotation(s: string): Option<(Square, Square)>
  {
    if |s| != 4 then None
    else match (ParseSquare(s[..2]), ParseSquare(s[2..]))
      case (Some(a), Some(b)) => Some((a, b))
      case _ => None
  }

  /** Two on-board moves print the same notation exactly when they are equal. */
  lemma NotationIdentifiesMove(m1: Move, m2: Move)
    requires OnBoard(m1.Start()) && OnBoard(m1.End()) && OnBoard(m2.Start()) && OnBoard(m2.End())
    ensures m1.ChessNotation() == m2.ChessNotation() <==> m1.Equals(m2)
  {
    if m1.ChessNotation() == m2.ChessNotation() {
      assert Some((m1.Start(), m1.End())) == Some((m2.Start(), m2.End()));
    }
  }
}
