/** The game state as a value, and what making and undoing a move do to it.
    These functions specify the state-changing methods of the game state;
    the lemmas state the make/undo round trip and the legality filter. */
module Rules {
  import opened Pieces
  import opened Moves
  import opened Generation

  /** Everything the engine's game state holds except the game-end flags. */
  datatype Position = Position(board: Board, whiteToMove: bool, moveLog: seq<Move>,
                               whiteKing: Square, blackKing: Square, enPassant: Option<Square>)

  /** The standard starting position, White to move. */
  function Initial(): (p: Position)
    ensures IsBoard(p.board) && p.whiteToMove && p.moveLog == [] && p.enPassant == None
  {
    Position(InitialBoard(), true, [], Square(7, 4), Square(0, 4), None)
  }

  /** The queen a promoting pawn becomes: same colour, queen kind. */
  function Promoted(piece: Cell): Cell
  {
    match piece
    case Piece(color, _) => Piece(color, Queen)
    case Empty => Empty
  }

  /** A pawn that moved two rows, in either direction. */
  predicate IsDoubleStep(m: Move)
  {
    m.pieceMoved.Piece? && m.pieceMoved.kind == Pawn &&
    (m.startRow - m.endRow == 2 || m.endRow - m.startRow == 2)
  }

  /** The square whose pawn an en-passant capture removes. */
  function CapturedSquare(m: Move): Square
  {
    Square(m.startRow, m.endCol)
  }

  /** The board writes of makeMove, in the engine's order. */
  function MovedBoard(b: Board, m: Move): (r: Board)
    requires IsBoard(b) && OnBoard(m.Start()) && OnBoard(m.End())
    ensures IsBoard(r)
  {
    var b1 := Put(b, m.Start(), Empty);
    var b2 := Put(b1, m.End(), m.pieceMoved);
    var b3 := if m.isPawnPromotion then Put(b2, m.End(), Promoted(m.pieceMoved)) else b2;
    if m.isEnpassantMove then Put(b3, CapturedSquare(m), Empty) else b3
  }

  /** makeMove: empties the start square, puts the moved piece (or, on
      promotion, a queen of its colour) on the end square, removes the pawn an
      en-passant capture takes, logs the move, passes the turn, moves the king
      cache of a moving king and sets or clears the en-passant target. */
  function AfterMove(p: Position, m: Move): (q: Position)
    requires IsBoard(p.board) && OnBoard(m.Start()) && OnBoard(m.End())
    ensures IsBoard(q.board)
  {
    var b4 := MovedBoard(p.board, m);
    var wk := if m.pieceMoved == Piece(White, King) then m.End() else p.whiteKing;
    var bk := if m.pieceMoved == Piece(Black, King) then m.End() else p.blackKing;
    var ep := if IsDoubleStep(m) then Some(Square((m.startRow + m.endRow) / 2, m.startCol)) else None;
    Position(b4, !p.whiteToMove, p.moveLog + [m], wk, bk, ep)
  }

  /** What makeMove does to each part of the position. */
  lemma MoveEffect(p: Position, m: Move)
    requires IsBoard(p.board) && OnBoard(m.Start()) && OnBoard(m.End())
    ensures AfterMove(p, m).moveLog == p.moveLog + [m] && AfterMove(p, m).whiteToMove == !p.whiteToMove
    // the start square is left empty
    ensures m.Start() != m.End() ==> At(AfterMove(p, m).board, m.Start()) == Empty
    // the end square holds the moved piece, or a queen of its colour on promotion
    ensures !(m.isEnpassantMove && CapturedSquare(m) == m.End()) ==>
              At(AfterMove(p, m).board, m.End()) == if m.isPawnPromotion then Promoted(m.pieceMoved) else m.pieceMoved
    // en passant empties the square beside the start square, in the end column
    ensures m.isEnpassantMove ==> At(AfterMove(p, m).board, CapturedSquare(m)) == Empty
    // no other square changes
    ensures forall sq ::
              (OnBoard(sq) && sq != m.Start() && sq != m.End() && !(m.isEnpassantMove && sq == CapturedSquare(m))) ==>
              At(AfterMove(p, m).board, sq) == At(p.board, sq)
    // only the moving king's cache follows it
    ensures AfterMove(p, m).whiteKing == if m.pieceMoved == Piece(White, King) then m.End() else p.whiteKing
    ensures AfterMove(p, m).blackKing == if m.pieceMoved == Piece(Black, King) then m.End() else p.blackKing
    // the en-passant target is the square a pawn skipped, and is cleared by every other move
    ensures AfterMove(p, m).enPassant.Some? <==> IsDoubleStep(m)
    ensures AfterMove(p, m).enPassant.Some? ==>
              AfterMove(p, m).enPassant.value.col == m.startCol &&
              AfterMove(p, m).enPassant.value.row - m.startRow == m.endRow - AfterMove(p, m).enPassant.value.row
  {
  }

  /** A move whose promotion flag is set whenever it takes a pawn to its far
      row, as every move the constructor builds. */
  predicate Playable(m: Move)
  {
    OnBoard(m.Start()) && OnBoard(m.End()) && (PromotesOn(m.pieceMoved, m.endRow) ==> m.isPawnPromotion)
  }

  /** Promotion keeps pawns off the row where they promote. */
  lemma MovePreservesPawnsInside(p: Position, m: Move)
    requires IsBoard(p.board) && PawnsInside(p.board) && Playable(m)
    ensures PawnsInside(AfterMove(p, m).board)
  {
    var q := AfterMove(p, m);
    MoveEffect(p, m);
    forall c | 0 <= c < 8
      ensures q.board[0][c] != Piece(White, Pawn) && q.board[7][c] != Piece(Black, Pawn)
    {
      assert At(q.board, Square(0, c)) == q.board[0][c] && At(q.board, Square(7, c)) == q.board[7][c];
      assert At(p.board, Square(0, c)) == p.board[0][c] && At(p.board, Square(7, c)) == p.board[7][c];
    }
  }

  /** makeMove does not read the en-passant target. */
  lemma AfterMoveIgnoresEnPassant(p: Position, m: Move, e: Option<Square>)
    requires IsBoard(p.board) && OnBoard(m.Start()) && OnBoard(m.End())
    ensures AfterMove(p.(enPassant := e), m) == AfterMove(p, m)
  {
  }

  function Last(log: seq<Move>): Move
    requires log != []
  {
    log[|log| - 1]
  }

  /** The square an undone move puts its captured piece back on. */
  function RestoreSquare(m: Move): Square
  {
    if m.isEnpassantMove then CapturedSquare(m) else m.End()
  }

  /** The board writes of undoMove, in the engine's order. */
  function UnmovedBoard(b: Board, m: Move): (r: Board)
    requires IsBoard(b) && OnBoard(m.Start()) && OnBoard(m.End())
    ensures IsBoard(r)
  {
    var b1 := Put(b, m.Start(), m.pieceMoved);
    var b2 := Put(b1, m.End(), m.pieceCaptured);
    if m.isEnpassantMove then Put(Put(b2, m.End(), Empty), CapturedSquare(m), m.pieceCaptured) else b2
  }

  /** undoMove: with a move in the log, takes it off the log, puts the moved
      piece back on its start square and the captured piece back where it was
      taken, passes the turn back, moves the king cache of a moving king back,
      and restores or clears the en-passant target. */
  function AfterUndo(p: Position): (q: Position)
    requires IsBoard(p.board)
    requires p.moveLog != [] ==> OnBoard(Last(p.moveLog).Start()) && OnBoard(Last(p.moveLog).End())
    ensures IsBoard(q.board)
    // with nothing to undo, nothing changes
    ensures p.moveLog == [] ==> q == p
  {
    if p.moveLog == [] then p
    else
      var m := Last(p.moveLog);
      var b3 := UnmovedBoard(p.board, m);
      var wk := if m.pieceMoved == Piece(White, King) then m.Start() else p.whiteKing;
      var bk := if m.pieceMoved == Piece(Black, King) then m.Start() else p.blackKing;
      var ep1 := if m.isEnpassantMove then Some(m.End()) else p.enPassant;
      var ep2 := if IsDoubleStep(m) then None else ep1;
      Position(b3, !p.whiteToMove, p.moveLog[..|p.moveLog| - 1], wk, bk, ep2)
  }

  /** What undoMove does to each part of the position. */
  lemma UndoEffect(p: Position)
    requires IsBoard(p.board) && p.moveLog != []
    requires OnBoard(Last(p.moveLog).Start()) && OnBoard(Last(p.moveLog).End())
    ensures var m := Last(p.moveLog);
            var q := AfterUndo(p);
            q.moveLog == p.moveLog[..|p.moveLog| - 1] && q.whiteToMove == !p.whiteToMove &&
            // the captured piece returns where it was taken, the moved piece to its start
            At(q.board, RestoreSquare(m)) == m.pieceCaptured &&
            (m.Start() != RestoreSquare(m) ==> At(q.board, m.Start()) == m.pieceMoved) &&
            // an undone en passant leaves its end square empty
            (m.isEnpassantMove && m.End() != RestoreSquare(m) ==> At(q.board, m.End()) == Empty) &&
            // no other square changes
            (forall sq :: OnBoard(sq) && sq != m.Start() && sq != m.End() && sq != RestoreSquare(m) ==>
                          At(q.board, sq) == At(p.board, sq)) &&
            q.whiteKing == (if m.pieceMoved == Piece(White, King) then m.Start() else p.whiteKing) &&
            q.blackKing == (if m.pieceMoved == Piece(Black, King) then m.Start() else p.blackKing) &&
            // the target comes back after an en passant, goes after a double step, stays otherwise
            q.enPassant == (if IsDoubleStep(m) then None
                            else if m.isEnpassantMove then Some(m.End())
                            else p.enPassant)
  {
  }

  /** A move that undo can take back exactly: it carries the pieces of the
      board it is played on, an en-passant capture finds its end square empty
      and the captured pawn beside its start, and a king move starts on the
      cached square of its king. */
  predicate Reversible(p: Position, m: Move)
  {
    IsBoard(p.board) && OnBoard(m.Start()) && OnBoard(m.End()) &&
    m.pieceMoved == At(p.board, m.Start()) &&
    (if m.isEnpassantMove then
       m.Start() != CapturedSquare(m) && m.End() != CapturedSquare(m) &&
       At(p.board, m.End()) == Empty && At(p.board, CapturedSquare(m)) == m.pieceCaptured
     else m.pieceCaptured == At(p.board, m.End())) &&
    (m.pieceMoved == Piece(White, King) ==> p.whiteKing == m.Start()) &&
    (m.pieceMoved == Piece(Black, King) ==> p.blackKing == m.Start())
  }

  /** The en-passant target that a make/undo round trip leaves behind. */
  function EnPassantAfterUndo(m: Move): Option<Square>
  {
    if IsDoubleStep(m) then None else if m.isEnpassantMove then Some(m.End()) else None
  }

  /** Undoing a move restores the board, the turn, the log and both king
      caches exactly; the en-passant target is not saved by makeMove and comes
      back only as EnPassantAfterUndo says. */
  lemma UndoReversesMove(p: Position, m: Move)
    requires Reversible(p, m)
    ensures AfterUndo(AfterMove(p, m)) == p.(enPassant := EnPassantAfterUndo(m))
  {
    var q := AfterMove(p, m);
    var u := AfterUndo(q);
    MoveEffect(p, m);
    assert Last(q.moveLog) == m;
    UndoEffect(q);
    forall sq | OnBoard(sq)
      ensures At(u.board, sq) == At(p.board, sq)
    {
      if sq != m.Start() && sq != m.End() && sq != RestoreSquare(m) {
        assert At(u.board, sq) == At(q.board, sq);
      }
    }
    BoardsEqual(u.board, p.board);
    assert q.moveLog[..|q.moveLog| - 1] == p.moveLog;
  }

  // ------------------------------------------------------------- soundness

  function KingSquare(p: Position, white: bool): Square
  {
    if white then p.whiteKing else p.blackKing
  }

  /** k is the one square where the king of the given colour stands. */
  ghost predicate KingCached(b: Board, k: Square, color: Color)
    requires IsBoard(b)
  {
    OnBoard(k) && At(b, k) == Piece(color, King) &&
    forall sq :: OnBoard(sq) && At(b, sq) == Piece(color, King) ==> sq == k
  }

  /** Each king cache names the one square where that colour's king stands. */
  ghost predicate KingsCached(p: Position)
    requires IsBoard(p.board)
  {
    KingCached(p.board, p.whiteKing, White) && KingCached(p.board, p.blackKing, Black)
  }

  /** An en-passant target is an empty square with the opponent's pawn that
      just skipped it standing behind it. */
  ghost predicate EnPassantSound(p: Position)
    requires IsBoard(p.board)
  {
    p.enPassant.Some? ==>
      var t := p.enPassant.value;
      var behind := Square(t.row - Forward(p.whiteToMove), t.col);
      OnBoard(t) && OnBoard(behind) && At(p.board, t) == Empty &&
      At(p.board, behind) == Piece(Opponent(ColorToMove(p.whiteToMove)), Pawn)
  }

  /** What the legality filter relies on: an 8x8 board with no pawn on its
      promotion row, exact king caches and a consistent en-passant target.
      Under it every candidate move can be made and undone exactly. */
  ghost predicate Scannable(p: Position)
  {
    IsBoard(p.board) && PawnsInside(p.board) && KingsCached(p) && EnPassantSound(p)
  }

  /** What holds of every position reached by legal play from the starting
      position. */
  ghost predicate Sound(p: Position)
  {
    Scannable(p) &&
    // the side that just moved did not leave its own king open to capture
    !Attacked(p.board, p.whiteToMove, p.enPassant, KingSquare(p, !p.whiteToMove))
  }

  /** The starting position is sound: one king of each colour, on the cached
      squares, and no white move reaches the black king's row. */
  lemma InitialSound()
    ensures Sound(Initial())
  {
    InitialBoardShape();
    InitialWhiteMovesStayBack();
  }

  /** Every pseudo-legal move of a scannable position can be undone exactly. */
  lemma GeneratedReversible(p: Position, m: Move)
    requires Scannable(p) && m in AllMoves(p.board, p.whiteToMove, p.enPassant)
    ensures Reversible(p, m) && Playable(m)
  {
    AllMovesGenerated(p.board, p.whiteToMove, p.enPassant);
    assert Generated(p.board, p.whiteToMove, p.enPassant, m);
  }

  /** Making m and then undoing it gives p back, except that the en-passant
      target may have been cleared. */
  predicate UndoRestores(p: Position, m: Move)
    requires IsBoard(p.board) && OnBoard(m.Start()) && OnBoard(m.End())
  {
    var u := AfterUndo(AfterMove(p, m));
    u == p.(enPassant := u.enPassant) && (u.enPassant == None || u.enPassant == p.enPassant)
  }

  /** Every pseudo-legal move of a scannable position can be made and undone:
      only the en-passant target may be lost on the way. */
  lemma GeneratedRoundTrip(p: Position, m: Move)
    requires Scannable(p) && m in AllMoves(p.board, p.whiteToMove, p.enPassant)
    ensures Playable(m) && PawnsInside(AfterMove(p, m).board) && UndoRestores(p, m)
  {
    AllMovesGenerated(p.board, p.whiteToMove, p.enPassant);
    assert Generated(p.board, p.whiteToMove, p.enPassant, m);
    GeneratedReversible(p, m);
    MovePreservesPawnsInside(p, m);
    UndoReversesMove(p, m);
  }

  // ---------------------------------------------------------- check, legality

  /** m can be made from p and undone again, and leaves no pawn on its
      promotion row: what the legality scan needs of each candidate. */
  predicate CanTest(p: Position, m: Move)
    requires IsBoard(p.board) && PawnsInside(p.board)
    ensures CanTest(p, m) ==> Playable(m)
  {
    Playable(m) && PawnsInside(AfterMove(p, m).board) && UndoRestores(p, m)
  }

  /** Every move of ms can be tested from p. */
  ghost predicate Testable(p: Position, ms: seq<Move>)
  {
    IsBoard(p.board) && PawnsInside(p.board) && forall m :: m in ms ==> CanTest(p, m)
  }

  /** The pseudo-legal moves of a scannable position are all testable. */
  lemma AllMovesTestable(p: Position)
    requires Scannable(p)
    ensures Testable(p, AllMoves(p.board, p.whiteToMove, p.enPassant))
  {
    forall m | m in AllMoves(p.board, p.whiteToMove, p.enPassant)
      ensures CanTest(p, m)
    {
      GeneratedRoundTrip(p, m);
    }
  }

  /** The side to move's king (by its cache) is attacked by the opponent. */
  predicate InCheck(p: Position)
    requires IsBoard(p.board) && PawnsInside(p.board)
    ensures InCheck(p) ==> OnBoard(KingSquare(p, p.whiteToMove))
  {
    Attacked(p.board, !p.whiteToMove, p.enPassant, KingSquare(p, p.whiteToMove))
  }

  /** After m is made, the mover's own king is attacked. */
  predicate LeavesKingInCheck(p: Position, m: Move)
    requires IsBoard(p.board) && PawnsInside(p.board) && Playable(m)
  {
    MovePreservesPawnsInside(p, m);
    InCheck(AfterMove(p, m).(whiteToMove := p.whiteToMove))
  }

  /** The moves of ms that do not leave the mover's king attacked, in order. */
  function Keep(p: Position, ms: seq<Move>): seq<Move>
    requires IsBoard(p.board) && PawnsInside(p.board)
    requires forall m :: m in ms ==> Playable(m)
  {
    if ms == [] then []
    else (if LeavesKingInCheck(p, ms[0]) then [] else [ms[0]]) + Keep(p, ms[1..])
  }

  /** Keep at index i: the verdict on ms[i] followed by Keep of the rest. */
  lemma KeepUnfold(p: Position, ms: seq<Move>, i: int)
    requires IsBoard(p.board) && PawnsInside(p.board)
    requires (forall m :: m in ms ==> Playable(m)) && 0 <= i < |ms|
    ensures Keep(p, ms[i..]) == (if LeavesKingInCheck(p, ms[i]) then [] else [ms[i]]) + Keep(p, ms[i + 1..])
  {
    assert ms[i..][0] == ms[i] && ms[i..][1..] == ms[i + 1..];
  }

  /** Keep drops exactly the moves that leave the king attacked. */
  lemma {:induction false} KeepMembers(p: Position, ms: seq<Move>, m: Move)
    requires IsBoard(p.board) && PawnsInside(p.board)
    requires forall x :: x in ms ==> Playable(x)
    ensures m in Keep(p, ms) <==> m in ms && !LeavesKingInCheck(p, m)
  {
    if ms != [] {
      KeepMembers(p, ms[1..], m);
      assert ms == [ms[0]] + ms[1..];
    }
  }

  /** Keep only drops moves. */
  lemma {:induction false} KeepShorter(p: Position, ms: seq<Move>)
    requires IsBoard(p.board) && PawnsInside(p.board)
    requires forall x :: x in ms ==> Playable(x)
    ensures |Keep(p, ms)| <= |ms|
  {
    if ms != [] {
      KeepShorter(p, ms[1..]);
    }
  }

  /** Keep only keeps moves it was given. */
  lemma KeepSubset(p: Position, ms: seq<Move>)
    requires IsBoard(p.board) && PawnsInside(p.board)
    requires forall x :: x in ms ==> Playable(x)
    ensures forall m :: m in Keep(p, ms) ==> m in ms
  {
    forall m | m in Keep(p, ms)
      ensures m in ms
    {
      KeepMembers(p, ms, m);
    }
  }

  /** Keep works move by move: filtering a concatenation filters each part,
      so the kept moves stay in their original order. */
  lemma {:induction false} KeepAppend(p: Position, a: seq<Move>, b: seq<Move>)
    requires IsBoard(p.board) && PawnsInside(p.board)
    requires forall x :: x in a + b ==> Playable(x)
    ensures Keep(p, a + b) == Keep(p, a) + Keep(p, b)
  {
    if a == [] {
      assert a + b == b;
    } else {
      assert (a + b)[0] == a[0] && (a + b)[1..] == a[1..] + b;
      KeepAppend(p, a[1..], b);
      var v := if LeavesKingInCheck(p, a[0]) then [] else [a[0]];
      AppendStep(v, Keep(p, a[1..]), Keep(p, b), v + Keep(p, a[1..]), v + Keep(p, a[1..]) + Keep(p, b));
    }
  }

  /** The legal moves: the pseudo-legal moves, in order, minus those after
      which the mover's king is attacked. */
  function LegalMoves(p: Position): (moves: seq<Move>)
    requires IsBoard(p.board) && PawnsInside(p.board)
    ensures |moves| <= |AllMoves(p.board, p.whiteToMove, p.enPassant)|
    ensures forall m :: m in moves ==> m in AllMoves(p.board, p.whiteToMove, p.enPassant) && Playable(m)
  {
    AllMovesGenerated(p.board, p.whiteToMove, p.enPassant);
    KeepShorter(p, AllMoves(p.board, p.whiteToMove, p.enPassant));
    KeepSubset(p, AllMoves(p.board, p.whiteToMove, p.enPassant));
    Keep(p, AllMoves(p.board, p.whiteToMove, p.enPassant))
  }

  /** A move is legal exactly when it is pseudo-legal and, once made, the
      mover's king (by its cache) is not attacked. */
  lemma LegalMovesMembers(p: Position, m: Move)
    requires IsBoard(p.board) && PawnsInside(p.board)
    ensures m in LegalMoves(p) <==>
              m in AllMoves(p.board, p.whiteToMove, p.enPassant) && Playable(m) &&
              !InCheck(AfterMove(p, m).(whiteToMove := p.whiteToMove))
  {
    AllMovesGenerated(p.board, p.whiteToMove, p.enPassant);
    KeepMembers(p, AllMoves(p.board, p.whiteToMove, p.enPassant), m);
  }

  /** In a scannable position a stale en-passant target, or none, does not change
      whether the side to move is in check. */
  lemma InCheckIgnoresStaleEnPassant(p: Position, e: Option<Square>)
    requires Scannable(p) && (e == None || e == p.enPassant)
    ensures InCheck(p.(enPassant := e)) <==> InCheck(p)
  {
    if e != p.enPassant {
      var k := KingSquare(p, p.whiteToMove);
      assert At(p.board, k).Piece?;
      AttackedIgnoresEnPassant(p.board, !p.whiteToMove, p.enPassant, k);
    }
  }

  /** A promoting pawn becomes a queen of its own colour. */
  lemma PromotionLeavesQueen(p: Position, start: Square, end: Square, isEnpassantMove: bool)
    requires IsBoard(p.board) && OnBoard(start) && OnBoard(end) && start.row != end.row
    requires PromotesOn(At(p.board, start), end.row)
    ensures var m := NewMove(start, end, p.board, isEnpassantMove);
            m.isPawnPromotion && At(AfterMove(p, m).board, end) == Piece(At(p.board, start).color, Queen)
  {
  }

  // ------------------------------------------------------- soundness is kept

  /** Forgetting the en-passant target keeps a position sound. */
  lemma SoundWithEnPassant(p: Position, e: Option<Square>)
    requires Sound(p) && (e == None || e == p.enPassant)
    ensures Sound(p.(enPassant := e))
  {
    if e != p.enPassant {
      var k := KingSquare(p, !p.whiteToMove);
      assert At(p.board, k).Piece?;
      AttackedIgnoresEnPassant(p.board, p.whiteToMove, p.enPassant, k);
    }
  }

  /** In a sound position no pseudo-legal move ends on either king. */
  lemma MoveSparesKings(p: Position, m: Move)
    requires Sound(p) && m in AllMoves(p.board, p.whiteToMove, p.enPassant)
    ensures m.End() != p.whiteKing && m.End() != p.blackKing
  {
    AllMovesGenerated(p.board, p.whiteToMove, p.enPassant);
    assert Generated(p.board, p.whiteToMove, p.enPassant, m);
  }

  /** A generated move that does not end on the king of the given colour keeps
      that king cached: a moving king's cache follows it to its end square,
      and every other king stays where it was, still the only one. */
  lemma MoveKeepsKingCached(p: Position, m: Move, color: Color, k: Square)
    requires IsBoard(p.board) && Generated(p.board, p.whiteToMove, p.enPassant, m) && Reversible(p, m)
    requires KingCached(p.board, k, color) && m.End() != k
    ensures KingCached(AfterMove(p, m).board, if m.pieceMoved == Piece(color, King) then m.End() else k, color)
  {
    var q := AfterMove(p, m);
    var k' := if m.pieceMoved == Piece(color, King) then m.End() else k;
    MoveEffect(p, m);
    forall sq | OnBoard(sq) && At(q.board, sq) == Piece(color, King)
      ensures sq == k'
    {
      if sq != m.Start() && sq != m.End() && !(m.isEnpassantMove && sq == CapturedSquare(m)) {
        assert At(p.board, sq) == Piece(color, King);
      }
    }
  }

  /** A double step leaves as en-passant target the square the pawn skipped:
      empty, with that pawn right behind it as seen from the side now to move. */
  lemma MoveKeepsEnPassantSound(p: Position, m: Move)
    requires IsBoard(p.board) && PawnsInside(p.board) && m in AllMoves(p.board, p.whiteToMove, p.enPassant)
    requires Generated(p.board, p.whiteToMove, p.enPassant, m)
    ensures EnPassantSound(AfterMove(p, m))
  {
    if IsDoubleStep(m) {
      DoubleStepShape(p.board, p.whiteToMove, p.enPassant, m);
      MoveEffect(p, m);
      var t := Square(m.startRow + Forward(p.whiteToMove), m.startCol);
      assert AfterMove(p, m).enPassant == Some(t);
      assert Square(t.row - Forward(!p.whiteToMove), t.col) == m.End();
    }
  }

  /** A pseudo-legal move that captures no king keeps a position scannable. */
  lemma MoveKeepsScannable(p: Position, m: Move)
    requires Scannable(p) && m in AllMoves(p.board, p.whiteToMove, p.enPassant)
    requires m.End() != p.whiteKing && m.End() != p.blackKing
    ensures Playable(m) && Scannable(AfterMove(p, m))
  {
    AllMovesGenerated(p.board, p.whiteToMove, p.enPassant);
    GeneratedReversible(p, m);
    MoveKeepsKingCached(p, m, White, p.whiteKing);
    MoveKeepsKingCached(p, m, Black, p.blackKing);
    MoveKeepsEnPassantSound(p, m);
    MovePreservesPawnsInside(p, m);
  }

  /** The game loop makes each listed move equal to the clicked one, so a king
      step listed twice is made twice.  The second make moves an empty start
      square onto the king: the board stays as after the first, the same side
      is to move again, and the position is still scannable. */
  lemma ReplayedKingStepScannable(p: Position, m: Move)
    requires Scannable(p) && m in AllMoves(p.board, p.whiteToMove, p.enPassant)
    requires m.pieceMoved.Piece? && m.pieceMoved.kind == King
    requires m.End() != p.whiteKing && m.End() != p.blackKing
    ensures Playable(m)
    ensures var q := AfterMove(p, m);
            var q2 := AfterMove(q, m);
            q2.board == q.board && q2.whiteToMove == p.whiteToMove &&
            q2.moveLog == p.moveLog + [m, m] && Scannable(q2)
  {
    AllMovesGenerated(p.board, p.whiteToMove, p.enPassant);
    MoveKeepsScannable(p, m);
    var q := AfterMove(p, m);
    MoveEffect(p, m);
    MoveEffect(q, m);
    var q2 := AfterMove(q, m);
    BoardsEqual(q2.board, q.board);
    assert q2.moveLog == p.moveLog + [m, m];
  }

  /** Making a legal move from a sound position gives a sound position, so
      every position reached by legal play from the start is sound. */
  lemma LegalMoveKeepsSound(p: Position, m: Move)
    requires Sound(p) && m in LegalMoves(p)
    ensures Sound(AfterMove(p, m))
  {
    var q := AfterMove(p, m);
    LegalMovesMembers(p, m);
    AllMovesGenerated(p.board, p.whiteToMove, p.enPassant);
    GeneratedRoundTrip(p, m);
    GeneratedReversible(p, m);
    MoveSparesKings(p, m);
    MoveEffect(p, m);
    MoveKeepsKingCached(p, m, White, p.whiteKing);
    MoveKeepsKingCached(p, m, Black, p.blackKing);
    MoveKeepsEnPassantSound(p, m);
  }

  /** Undoing a pseudo-legal move just made from a sound position gives a
      sound position: the one before, less perhaps its en-passant target. */
  lemma UndoKeepsSound(p: Position, m: Move)
    requires Sound(p) && m in AllMoves(p.board, p.whiteToMove, p.enPassant)
    ensures Playable(m) && Sound(AfterUndo(AfterMove(p, m)))
  {
    GeneratedRoundTrip(p, m);
    var u := AfterUndo(AfterMove(p, m));
    SoundWithEnPassant(p, u.enPassant);
    assert u == p.(enPassant := u.enPassant);
  }
}
