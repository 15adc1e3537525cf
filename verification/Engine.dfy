/** The game state: the board, whose turn it is, the move log, the cached
    king squares, the en-passant target and the game-end flags, updated in
    place by making and undoing moves.  Each method is proved against the
    value-level specification in Generation and Rules. */
module Engine {
  import opened Pieces
  import opened Moves
  import opened Generation
  import opened Rules

  predicate LogOnBoard(log: seq<Move>)
  {
    forall i :: 0 <= i < |log| ==> OnBoard(log[i].Start()) && OnBoard(log[i].End())
  }

  class GameState {
    var board: Board
    var whiteToMove: bool
    var moveLog: seq<Move>
    var whiteKingLocation: Square
    var blackKingLocation: Square
    var checkMate: bool
    var staleMate: bool
    var enpassantPossible: Option<Square>

    ghost predicate Valid()
      reads this
    {
      IsBoard(board) && LogOnBoard(moveLog)
    }

    /** The state without the game-end flags. */
    function State(): Position
      reads this
    {
      Position(board, whiteToMove, moveLog, whiteKingLocation, blackKingLocation, enpassantPossible)
    }

    constructor ()
      ensures Valid() && State() == Initial() && Sound(State())
      ensures !checkMate && !staleMate
    {
      board := InitialBoard();
      whiteToMove := true;
      moveLog := [];
      whiteKingLocation := Square(7, 4);
      blackKingLocation := Square(0, 4);
      checkMate := false;
      staleMate := false;
      enpassantPossible := None;
      new;
      InitialSound();
    }

    method MakeMove(move: Move)
      requires Valid() && OnBoard(move.Start()) && OnBoard(move.End())
      modifies this
      ensures Valid() && State() == AfterMove(old(State()), move)
      ensures checkMate == old(checkMate) && staleMate == old(staleMate)
    {
      ghost var q := AfterMove(State(), move);
      board := MovePieces(board, move);
      moveLog := moveLog + [move];
      whiteToMove := !whiteToMove;
      if move.pieceMoved == Piece(White, King) {
        whiteKingLocation := move.End();
      } else if move.pieceMoved == Piece(Black, King) {
        blackKingLocation := move.End();
      }
      if IsDoubleStep(move) {
        enpassantPossible := Some(Square((move.startRow + move.endRow) / 2, move.startCol));
      } else {
        enpassantPossible := None;
      }
    }

    method UndoMove()
      requires Valid()
      modifies this
      ensures Valid() && State() == AfterUndo(old(State()))
      ensures checkMate == old(checkMate) && staleMate == old(staleMate)
    {
      if |moveLog| != 0 {
        var move := moveLog[|moveLog| - 1];
        moveLog := moveLog[..|moveLog| - 1];
        board := UnmovePieces(board, move);
        whiteToMove := !whiteToMove;
        if move.pieceMoved == Piece(White, King) {
          whiteKingLocation := move.Start();
        } else if move.pieceMoved == Piece(Black, King) {
          blackKingLocation := move.Start();
        }
        if move.isEnpassantMove {
          enpassantPossible := Some(move.End());
        }
        if IsDoubleStep(move) {
          enpassantPossible := None;
        }
      }
    }

    /** The legal moves.  Each pseudo-legal move is made, the turn is handed
        back to the mover to ask whether the mover is in check, and the move
        is undone; the en-passant target is saved and restored around the
        scan.  Sets the checkmate or stalemate flag when nothing is left. */
    method GetValidMoves() returns (moves: seq<Move>)
      requires Valid() && Scannable(State())
      modifies this
      ensures Valid() && State() == old(State())
      ensures moves == LegalMoves(old(State()))
      ensures moves != [] ==> !checkMate && !staleMate
      ensures moves == [] && Rules.InCheck(old(State())) ==> checkMate && staleMate == old(staleMate)
      ensures moves == [] && !Rules.InCheck(old(State())) ==> staleMate && checkMate == old(checkMate)
    {
      ghost var p := State();
      var tempEnPassantPossible := enpassantPossible;
      var all := GetAllPossibleMoves();
      AllMovesTestable(p);
      moves := RemoveIllegal(all, p);
      ghost var mate0, stale0 := checkMate, staleMate;
      if |moves| == 0 {
        var check := InCheck();
        InCheckIgnoresStaleEnPassant(p, enpassantPossible);
        assert check == Rules.InCheck(p);
        if check {
          checkMate := true;
        } else {
          staleMate := true;
        }
      } else {
        checkMate := false;
        staleMate := false;
      }
      assert moves == [] ==> if Rules.InCheck(p) then checkMate && staleMate == stale0 else staleMate && checkMate == mate0;
      enpassantPossible := tempEnPassantPossible;
    }

    /** The legality scan proper: walks the candidates from the last to the
        first and removes each one that leaves the mover's king attacked. */
    method RemoveIllegal(all: seq<Move>, ghost p: Position) returns (moves: seq<Move>)
      requires Valid() && Testable(p, all) && State() == p
      modifies this
      ensures Scanning(p)
      ensures checkMate == old(checkMate) && staleMate == old(staleMate)
      ensures moves == Keep(p, all)
    {
      assert forall m :: m in all ==> Playable(m);
      moves := all;
      var i := |moves|;
      while i > 0
        invariant 0 <= i <= |all|
        invariant Scanning(p)
        invariant checkMate == old(checkMate) && staleMate == old(staleMate)
        invariant moves == all[..i] + Keep(p, all[i..])
      {
        i := i - 1;
        moves := ScanStep(all, i, moves, p);
      }
      assert all[0..] == all;
    }

    /** The object holds the position p, except that the en-passant target
        may have been cleared. */
    ghost predicate Scanning(p: Position)
      reads this
    {
      Valid() && State() == p.(enPassant := enpassantPossible) &&
      (enpassantPossible == p.enPassant || enpassantPossible == None)
    }

    /** One step of the scan: tests moves[i] and removes it when it leaves
        the mover's king attacked. */
    method ScanStep(all: seq<Move>, i: int, moves: seq<Move>, ghost p: Position) returns (kept: seq<Move>)
      requires Scanning(p) && Testable(p, all) && (forall m :: m in all ==> Playable(m))
      requires 0 <= i < |all| && moves == all[..i + 1] + Keep(p, all[i + 1..])
      modifies this
      ensures Scanning(p) && checkMate == old(checkMate) && staleMate == old(staleMate)
      ensures kept == all[..i] + Keep(p, all[i..])
    {
      assert moves[i] == all[i];
      var check := MakeTestUndo(moves[i], p);
      kept := moves;
      if check {
        kept := moves[..i] + moves[i + 1..];
      }
      KeepUnfold(p, all, i);
      FilterStep(all, i, Keep(p, all[i + 1..]), check, moves, kept);
    }

    /** The body of the legality scan: makes the move, hands the turn back to
        the mover to ask whether the mover is in check, hands it on again and
        undoes the move.  Only the en-passant target can differ afterwards. */
    method MakeTestUndo(move: Move, ghost p: Position) returns (check: bool)
      requires Scanning(p) && IsBoard(p.board) && PawnsInside(p.board) && CanTest(p, move)
      modifies this
      ensures Scanning(p) && checkMate == old(checkMate) && staleMate == old(staleMate)
      ensures Playable(move) && check == LeavesKingInCheck(p, move)
    {
      AfterMoveIgnoresEnPassant(p, move, enpassantPossible);
      MakeMove(move);
      whiteToMove := !whiteToMove;
      check := InCheck();
      whiteToMove := !whiteToMove;
      UndoMove();
    }

    /** Whether the side to move's king, found through its cache, is attacked. */
    method InCheck() returns (check: bool)
      requires Valid() && PawnsInside(board)
      modifies this`whiteToMove
      ensures State() == old(State())
      ensures check == Rules.InCheck(State())
    {
      if whiteToMove {
        check := SquareUnderAttack(whiteKingLocation.row, whiteKingLocation.col);
      } else {
        check := SquareUnderAttack(blackKingLocation.row, blackKingLocation.col);
      }
    }

    /** Whether some pseudo-legal move of the opponent ends on (r, c).  The
        turn is handed to the opponent to generate its moves and handed back. */
    method SquareUnderAttack(r: int, c: int) returns (attacked: bool)
      requires Valid() && PawnsInside(board)
      modifies this`whiteToMove
      ensures State() == old(State())
      ensures attacked == Attacked(board, !whiteToMove, enpassantPossible, Square(r, c))
    {
      whiteToMove := !whiteToMove;
      var oppMoves := GetAllPossibleMoves();
      whiteToMove := !whiteToMove;
      for i := 0 to |oppMoves|
        invariant forall j :: 0 <= j < i ==> oppMoves[j].End() != Square(r, c)
      {
        if oppMoves[i].endRow == r && oppMoves[i].endCol == c {
          assert oppMoves[i] in oppMoves;
          return true;
        }
      }
      return false;
    }

    /** Scans the board row by row and hands every piece of the side to move
        to the generator of its kind. */
    method GetAllPossibleMoves() returns (moves: seq<Move>)
      requires Valid() && PawnsInside(board)
      ensures moves == AllMoves(board, whiteToMove, enpassantPossible)
    {
      moves := [];
      for r := 0 to |board|
        invariant moves == BoardMoves(board, whiteToMove, enpassantPossible, r)
      {
        ghost var rowStart := moves;
        for c := 0 to |board[r]|
          invariant moves == rowStart + RowMoves(board, whiteToMove, enpassantPossible, r, c)
        {
          ghost var before := moves;
          var cell := board[r][c];
          if (IsColor(cell, White) && whiteToMove) || (IsColor(cell, Black) && !whiteToMove) {
            moves := CallMoveFunction(r, c, moves);
          }
          RowMovesNext(board, whiteToMove, enpassantPossible, r, c, rowStart, before, moves);
        }
      }
    }

    /** The engine's table from piece kind to generator method. */
    method CallMoveFunction(r: int, c: int, moves: seq<Move>) returns (result: seq<Move>)
      requires Valid() && PawnsInside(board) && OnBoard(Square(r, c))
      requires IsColor(board[r][c], ColorToMove(whiteToMove))
      ensures result == moves + PieceMoves(board, whiteToMove, enpassantPossible, r, c)
    {
      match board[r][c].kind
      case Pawn => result := GetPawnMoves(r, c, moves);
      case Rook => result := GetRookMoves(r, c, moves);
      case Knight => result := GetKnightMoves(r, c, moves);
      case Bishop => result := GetBishopMoves(r, c, moves);
      case Queen => result := GetQueenMoves(r, c, moves);
      case King => result := GetKingMoves(r, c, moves);
    }

    /** Appends the moves of the pawn on (r, c): the advance, then the two
        diagonal steps, White's left one first and Black's right one first.
        The square in front of the pawn must be on the board. */
    method GetPawnMoves(r: int, c: int, moves: seq<Move>) returns (result: seq<Move>)
      requires Valid() && OnBoard(Square(r, c)) && OnBoard(Square(r + Forward(whiteToMove), c))
      ensures result == moves + PawnMoves(board, whiteToMove, enpassantPossible, r, c)
    {
      result := AddPawnAdvance(board, whiteToMove, r, c, moves);
      ghost var advanced := result;
      ghost var x := FirstSide(whiteToMove);
      if whiteToMove {
        result := AddPawnCapture(board, whiteToMove, enpassantPossible, r, c, -1, result);
        ghost var first := result;
        result := AddPawnCapture(board, whiteToMove, enpassantPossible, r, c, 1, result);
        AppendThree(moves, PawnAdvance(board, whiteToMove, r, c), PawnCapture(board, whiteToMove, enpassantPossible, r, c, x),
                    PawnCapture(board, whiteToMove, enpassantPossible, r, c, -x), advanced, first, result);
      } else {
        result := AddPawnCapture(board, whiteToMove, enpassantPossible, r, c, 1, result);
        ghost var first := result;
        result := AddPawnCapture(board, whiteToMove, enpassantPossible, r, c, -1, result);
        AppendThree(moves, PawnAdvance(board, whiteToMove, r, c), PawnCapture(board, whiteToMove, enpassantPossible, r, c, x),
                    PawnCapture(board, whiteToMove, enpassantPossible, r, c, -x), advanced, first, result);
      }
    }

    method GetRookMoves(r: int, c: int, moves: seq<Move>) returns (result: seq<Move>)
      requires Valid() && OnBoard(Square(r, c))
      ensures result == moves + RookMoves(board, Opponent(ColorToMove(whiteToMove)), r, c)
    {
      var enemyColor := Opponent(ColorToMove(whiteToMove));
      result := AddRayMoves(board, enemyColor, r, c, RookDirections, moves);
    }

    method GetBishopMoves(r: int, c: int, moves: seq<Move>) returns (result: seq<Move>)
      requires Valid() && OnBoard(Square(r, c))
      ensures result == moves + BishopMoves(board, Opponent(ColorToMove(whiteToMove)), r, c)
    {
      var enemyColor := Opponent(ColorToMove(whiteToMove));
      result := AddRayMoves(board, enemyColor, r, c, BishopDirections, moves);
    }

    method GetQueenMoves(r: int, c: int, moves: seq<Move>) returns (result: seq<Move>)
      requires Valid() && OnBoard(Square(r, c))
      ensures result == moves + QueenMoves(board, Opponent(ColorToMove(whiteToMove)), r, c)
    {
      var enemyColor := Opponent(ColorToMove(whiteToMove));
      result := AddRayMoves(board, enemyColor, r, c, QueenDirections, moves);
    }

    method GetKnightMoves(r: int, c: int, moves: seq<Move>) returns (result: seq<Move>)
      requires Valid() && OnBoard(Square(r, c))
      ensures result == moves + KnightMoves(board, Opponent(ColorToMove(whiteToMove)), r, c)
    {
      var enemyColor := Opponent(ColorToMove(whiteToMove));
      result := AddStepMoves(board, enemyColor, r, c, KnightOffsets, moves);
    }

    method GetKingMoves(r: int, c: int, moves: seq<Move>) returns (result: seq<Move>)
      requires Valid() && OnBoard(Square(r, c))
      ensures result == moves + KingMoves(board, Opponent(ColorToMove(whiteToMove)), r, c)
    {
      var enemyColor := Opponent(ColorToMove(whiteToMove));
      result := AddStepMoves(board, enemyColor, r, c, KingOffsets, moves);
    }
  }

  /** The board writes of makeMove: the start square is emptied, the moved
      piece (or its promotion) lands on the end square and an en-passant
      capture removes the pawn beside the start square. */
  method MovePieces(b: Board, move: Move) returns (result: Board)
    requires IsBoard(b) && OnBoard(move.Start()) && OnBoard(move.End())
    ensures result == MovedBoard(b, move)
  {
    result := Put(b, move.Start(), Empty);
    result := Put(result, move.End(), move.pieceMoved);
    if move.isPawnPromotion {
      result := Put(result, move.End(), Promoted(move.pieceMoved));
    }
    if move.isEnpassantMove {
      result := Put(result, CapturedSquare(move), Empty);
    }
  }

  /** The board writes of undoMove: the moved piece goes back to its start
      square and the captured piece to the end square; for an en-passant
      capture the end square is emptied again and the pawn goes back beside
      the start square. */
  method UnmovePieces(b: Board, move: Move) returns (result: Board)
    requires IsBoard(b) && OnBoard(move.Start()) && OnBoard(move.End())
    ensures result == UnmovedBoard(b, move)
  {
    result := Put(b, move.Start(), move.pieceMoved);
    result := Put(result, move.End(), move.pieceCaptured);
    if move.isEnpassantMove {
      result := Put(result, move.End(), Empty);
      result := Put(result, CapturedSquare(move), move.pieceCaptured);
    }
  }

  /** One step of the backward scan, on sequences alone: removing index i
      exactly when check holds puts the verdict on all[i] in front of the
      filtered suffix rest.  Dafny proves it unaided; it is stated apart so
      that GetValidMoves meets this fact on plain sequences, in a small
      context, instead of on the fields of the position. */
  lemma FilterStep(all: seq<Move>, i: int, rest: seq<Move>, check: bool, before: seq<Move>, after: seq<Move>)
    requires 0 <= i < |all| && before == all[..i + 1] + rest
    requires after == if check then before[..i] + before[i + 1..] else before
    ensures after == all[..i] + ((if check then [] else [all[i]]) + rest)
  {
  }

  // The loops of the generators, over a snapshot of the board.

  /** The one-square advance onto an empty square and, from the home row, the
      two-square advance. */
  method AddPawnAdvance(b: Board, white: bool, r: int, c: int, moves: seq<Move>) returns (result: seq<Move>)
    requires IsBoard(b) && OnBoard(Square(r, c)) && OnBoard(Square(r + Forward(white), c))
    ensures result == moves + PawnAdvance(b, white, r, c)
  {
    var dr := Forward(white);
    result := moves;
    if b[r + dr][c] == Empty {
      result := result + [NewMove(Square(r, c), Square(r + dr, c), b, false)];
      if r == HomeRow(white) && b[r + 2 * dr][c] == Empty {
        result := result + [NewMove(Square(r, c), Square(r + 2 * dr, c), b, false)];
      }
    }
  }

  /** One diagonal step of a pawn, towards column c + dc: a capture when an
      enemy piece stands there, otherwise an en-passant capture when that
      square is the en-passant target. */
  method AddPawnCapture(b: Board, white: bool, ep: Option<Square>, r: int, c: int, dc: int, moves: seq<Move>)
    returns (result: seq<Move>)
    requires IsBoard(b) && OnBoard(Square(r, c)) && OnBoard(Square(r + Forward(white), c))
    ensures result == moves + PawnCapture(b, white, ep, r, c, dc)
  {
    var enemyColor := Opponent(ColorToMove(white));
    var endRow := r + Forward(white);
    result := moves;
    if 0 <= c + dc <= 7 {
      if IsColor(b[endRow][c + dc], enemyColor) {
        result := result + [NewMove(Square(r, c), Square(endRow, c + dc), b, false)];
      } else if Some(Square(endRow, c + dc)) == ep {
        result := result + [NewMove(Square(r, c), Square(endRow, c + dc), b, true)];
      }
    }
  }

  /** The direction loop shared by the rook, bishop and queen generators. */
  method AddRayMoves(b: Board, enemyColor: Color, r: int, c: int, directions: seq<Offset>, moves: seq<Move>)
    returns (result: seq<Move>)
    requires IsBoard(b) && OnBoard(Square(r, c))
    ensures result == moves + Slides(b, enemyColor, r, c, directions, |directions|)
  {
    result := moves;
    for k := 0 to |directions|
      invariant result == moves + Slides(b, enemyColor, r, c, directions, k)
    {
      ghost var before := result;
      result := AddRay(b, enemyColor, r, c, directions[k], result);
      SlidesNext(b, enemyColor, r, c, directions, k, moves, before, result);
    }
  }

  /** One direction: steps 1 to 7, stopping at the edge, before a friendly
      piece, or after an enemy piece. */
  method AddRay(b: Board, enemyColor: Color, r: int, c: int, d: Offset, moves: seq<Move>) returns (result: seq<Move>)
    requires IsBoard(b) && OnBoard(Square(r, c))
    ensures result == moves + Ray(b, enemyColor, r, c, d, 1)
  {
    result := moves;
    for i := 1 to 8
      invariant result + Ray(b, enemyColor, r, c, d, i) == moves + Ray(b, enemyColor, r, c, d, 1)
    {
      var endRow := r + d.0 * i;
      var endCol := c + d.1 * i;
      if 0 <= endRow < 8 && 0 <= endCol < 8 {
        var endPiece := b[endRow][endCol];
        if endPiece == Empty {
          result := result + [NewMove(Square(r, c), Square(endRow, endCol), b, false)];
        } else if IsColor(endPiece, enemyColor) {
          result := result + [NewMove(Square(r, c), Square(endRow, endCol), b, false)];
          break;
        } else {
          break;
        }
      } else {
        break;
      }
    }
  }

  /** The target loop shared by the knight and king generators: each target
      is bounds-checked before the board is read. */
  method AddStepMoves(b: Board, enemyColor: Color, r: int, c: int, offsets: seq<Offset>, moves: seq<Move>)
    returns (result: seq<Move>)
    requires IsBoard(b) && OnBoard(Square(r, c))
    ensures result == moves + Steps(b, enemyColor, r, c, offsets, |offsets|)
  {
    result := moves;
    for k := 0 to |offsets|
      invariant result == moves + Steps(b, enemyColor, r, c, offsets, k)
    {
      var t := Target(r, c, offsets[k]);
      if (0 <= t.row <= 7 && 0 <= t.col <= 7) && (IsColor(b[t.row][t.col], enemyColor) || b[t.row][t.col] == Empty) {
        result := result + [NewMove(Square(r, c), t, b, false)];
      }
    }
  }
}
