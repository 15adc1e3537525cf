/** Pseudo-legal move generation, as values.  Each function lists the moves
    in the order the engine appends them: the board is scanned row by row and
    column by column, and each piece's directions or offsets are tried in the
    order of the engine's tables.  These functions specify the generator
    methods of the game state; the lemmas state the movement rules they obey. */
module Generation {
  import opened Pieces
  import opened Moves

  /** Row step of a pawn of the side to move: White moves towards row 0. */
  function Forward(whiteToMove: bool): int
  {
    if whiteToMove then -1 else 1
  }

  /** Row from which a pawn of the side to move may advance two squares. */
  function HomeRow(whiteToMove: bool): int
  {
    if whiteToMove then 6 else 1
  }

  type Offset = (int, int)

  const RookDirections: seq<Offset> := [(-1, 0), (0, -1), (1, 0), (0, 1)]
  const BishopDirections: seq<Offset> := [(1, -1), (1, 1), (-1, -1), (-1, 1)]
  const QueenDirections: seq<Offset> := [(1, -1), (1, 1), (-1, -1), (-1, 1), (-1, 0), (1, 0), (0, -1), (0, 1)]
  const KnightOffsets: seq<Offset> := [(-2, -1), (-2, 1), (-1, -2), (1, -2), (-1, 2), (1, 2), (2, -1), (2, 1)]
  /** The king's table, in the engine's order.  The entry (-1, 0) is listed
      twice (as "DOWN" and as "UP") and (1, 0) is missing. */
  const KingOffsets: seq<Offset> := [(-1, -1), (-1, 1), (0, -1), (1, -1), (-1, 0), (1, 1), (0, 1), (-1, 0)]

  // ---------------------------------------------------------------- pawns

  /** The one-square advance onto an empty square, followed, from the home
      row, by the two-square advance when that square is empty too. */
  function PawnAdvance(b: Board, white: bool, r: int, c: int): seq<Move>
    requires IsBoard(b) && OnBoard(Square(r, c)) && OnBoard(Square(r + Forward(white), c))
  {
    var one := Square(r + Forward(white), c);
    if At(b, one) != Empty then []
    else
      [NewMove(Square(r, c), one, b, false)] +
      if r == HomeRow(white) && At(b, Square(r + 2 * Forward(white), c)) == Empty
      then [NewMove(Square(r, c), Square(r + 2 * Forward(white), c), b, false)]
      else []
  }

  /** A diagonal step towards column c + dc: a capture of an enemy piece, or
      else an en-passant capture onto the en-passant target square. */
  function PawnCapture(b: Board, white: bool, ep: Option<Square>, r: int, c: int, dc: int): seq<Move>
    requires IsBoard(b) && OnBoard(Square(r, c)) && OnBoard(Square(r + Forward(white), c))
  {
    var target := Square(r + Forward(white), c + dc);
    if !(0 <= c + dc <= 7) then []
    else if IsColor(At(b, target), Opponent(ColorToMove(white))) then [NewMove(Square(r, c), target, b, false)]
    else if ep == Some(target) then [NewMove(Square(r, c), target, b, true)]
    else []
  }

  /** The column offset of the diagonal a pawn tries first: White tries
      column c - 1 first, Black column c + 1. */
  function FirstSide(white: bool): int
  {
    if white then -1 else 1
  }

  /** The advance, then the capture towards FirstSide, then the other one. */
  function PawnMoves(b: Board, white: bool, ep: Option<Square>, r: int, c: int): seq<Move>
    requires IsBoard(b) && OnBoard(Square(r, c)) && OnBoard(Square(r + Forward(white), c))
  {
    PawnAdvance(b, white, r, c) +
    (PawnCapture(b, white, ep, r, c, FirstSide(white)) + PawnCapture(b, white, ep, r, c, -FirstSide(white)))
  }

  /** The four kinds of pawn move. */
  predicate PawnRule(b: Board, white: bool, ep: Option<Square>, r: int, c: int, m: Move)
    requires IsBoard(b) && OnBoard(Square(r, c)) && OnBoard(Square(r + Forward(white), c))
  {
    var enemy := Opponent(ColorToMove(white));
    var one := Square(r + Forward(white), c);
    m.Start() == Square(r, c) && OnBoard(m.End()) &&
    m == NewMove(m.Start(), m.End(), b, m.isEnpassantMove) &&
    (
      // one square forward, onto an empty square
      (m.End() == one && !m.isEnpassantMove && At(b, one) == Empty) ||
      // two squares forward from the home row, across an empty square onto an empty square
      (m.End() == Square(r + 2 * Forward(white), c) && !m.isEnpassantMove && r == HomeRow(white) &&
       At(b, one) == Empty && At(b, m.End()) == Empty) ||
      // one square diagonally forward ...
      (m.endRow == r + Forward(white) && (m.endCol == c - 1 || m.endCol == c + 1) &&
       if m.isEnpassantMove
       // ... onto the en-passant target, when no enemy piece stands there
       then ep == Some(m.End()) && !IsColor(At(b, m.End()), enemy)
       // ... onto an enemy piece
       else IsColor(At(b, m.End()), enemy))
    )
  }

  lemma PawnMovesFollowRules(b: Board, white: bool, ep: Option<Square>, r: int, c: int)
    requires IsBoard(b) && OnBoard(Square(r, c)) && OnBoard(Square(r + Forward(white), c))
    ensures forall m :: m in PawnMoves(b, white, ep, r, c) ==> PawnRule(b, white, ep, r, c, m)
  {
    forall m | m in PawnMoves(b, white, ep, r, c)
      ensures PawnRule(b, white, ep, r, c, m)
    {
      if m in PawnCapture(b, white, ep, r, c, -1) {
        PawnCaptureFollowsRules(b, white, ep, r, c, -1, m);
      } else if m in PawnCapture(b, white, ep, r, c, 1) {
        PawnCaptureFollowsRules(b, white, ep, r, c, 1, m);
      } else {
        PawnAdvanceFollowsRules(b, white, ep, r, c, m);
      }
    }
  }

  /** Conversely, every move of the four kinds is generated: with
      PawnMovesFollowRules, the pawn's moves are exactly the moves of
      PawnRule. */
  lemma PawnMovesComplete(b: Board, white: bool, ep: Option<Square>, r: int, c: int, m: Move)
    requires IsBoard(b) && OnBoard(Square(r, c)) && OnBoard(Square(r + Forward(white), c))
    requires PawnRule(b, white, ep, r, c, m)
    ensures m in PawnMoves(b, white, ep, r, c)
  {
  }

  lemma PawnAdvanceFollowsRules(b: Board, white: bool, ep: Option<Square>, r: int, c: int, m: Move)
    requires IsBoard(b) && OnBoard(Square(r, c)) && OnBoard(Square(r + Forward(white), c))
    requires m in PawnAdvance(b, white, r, c)
    ensures PawnRule(b, white, ep, r, c, m)
  {
  }

  lemma PawnCaptureFollowsRules(b: Board, white: bool, ep: Option<Square>, r: int, c: int, dc: int, m: Move)
    requires IsBoard(b) && OnBoard(Square(r, c)) && OnBoard(Square(r + Forward(white), c))
    requires (dc == -1 || dc == 1) && m in PawnCapture(b, white, ep, r, c, dc)
    ensures PawnRule(b, white, ep, r, c, m)
  {
    assert m.endCol == c + dc;
  }

  // ------------------------------------------------ rooks, bishops, queens

  /** The square i steps from (r, c) in direction d. */
  function Step(r: int, c: int, d: Offset, i: int): Square
  {
    Square(r + d.0 * i, c + d.1 * i)
  }

  /** Ray casting from step i on: empty squares are taken and the ray goes on;
      an enemy piece is taken and the ray stops; a friendly piece or the edge
      of the board stops the ray.  The engine tries steps 1 to 7. */
  function Ray(b: Board, enemy: Color, r: int, c: int, d: Offset, i: int): seq<Move>
    requires IsBoard(b) && OnBoard(Square(r, c))
    decreases 8 - i
  {
    if i >= 8 then []
    else
      var target := Step(r, c, d, i);
      if !OnBoard(target) then []
      else if At(b, target) == Empty then [NewMove(Square(r, c), target, b, false)] + Ray(b, enemy, r, c, d, i + 1)
      else if IsColor(At(b, target), enemy) then [NewMove(Square(r, c), target, b, false)]
      else []
  }

  /** The rays of the first k directions of the table, in order. */
  function Slides(b: Board, enemy: Color, r: int, c: int, dirs: seq<Offset>, k: int): seq<Move>
    requires IsBoard(b) && OnBoard(Square(r, c)) && 0 <= k <= |dirs|
  {
    if k == 0 then [] else Slides(b, enemy, r, c, dirs, k - 1) + Ray(b, enemy, r, c, dirs[k - 1], 1)
  }

  /** Appending the ray of direction k extends the slides of the first k directions. */
  lemma SlidesNext(b: Board, enemy: Color, r: int, c: int, dirs: seq<Offset>, k: int,
                   moves: seq<Move>, before: seq<Move>, after: seq<Move>)
    requires IsBoard(b) && OnBoard(Square(r, c)) && 0 <= k < |dirs|
    requires before == moves + Slides(b, enemy, r, c, dirs, k)
    requires after == before + Ray(b, enemy, r, c, dirs[k], 1)
    ensures after == moves + Slides(b, enemy, r, c, dirs, k + 1)
  {
  }

  function RookMoves(b: Board, enemy: Color, r: int, c: int): seq<Move>
    requires IsBoard(b) && OnBoard(Square(r, c))
  {
    Slides(b, enemy, r, c, RookDirections, |RookDirections|)
  }

  function BishopMoves(b: Board, enemy: Color, r: int, c: int): seq<Move>
    requires IsBoard(b) && OnBoard(Square(r, c))
  {
    Slides(b, enemy, r, c, BishopDirections, |BishopDirections|)
  }

  function QueenMoves(b: Board, enemy: Color, r: int, c: int): seq<Move>
    requires IsBoard(b) && OnBoard(Square(r, c))
  {
    Slides(b, enemy, r, c, QueenDirections, |QueenDirections|)
  }

  /** Step k of the ray from step i on is reachable: it is on the board, every
      square before it from step i on is on the board and empty, and it is
      empty or holds an enemy piece. */
  predicate RayTarget(b: Board, enemy: Color, r: int, c: int, d: Offset, i: int, k: int)
    requires IsBoard(b)
  {
    i <= k < 8 && OnBoard(Step(r, c, d, k)) &&
    (forall j :: i <= j < k ==> OnBoard(Step(r, c, d, j)) && At(b, Step(r, c, d, j)) == Empty) &&
    (At(b, Step(r, c, d, k)) == Empty || IsColor(At(b, Step(r, c, d, k)), enemy))
  }

  /** A ray holds exactly the moves to its reachable squares: it never passes
      a friendly piece, an enemy piece or the edge, never lands on a friendly
      piece, and misses no square it can reach. */
  lemma RayMembers(b: Board, enemy: Color, r: int, c: int, d: Offset, i: int, m: Move)
    requires IsBoard(b) && OnBoard(Square(r, c))
    ensures m in Ray(b, enemy, r, c, d, i) <==>
            exists k :: RayTarget(b, enemy, r, c, d, i, k) && m == NewMove(Square(r, c), Step(r, c, d, k), b, false)
  {
    if m in Ray(b, enemy, r, c, d, i) {
      RaySound(b, enemy, r, c, d, i, m);
    }
    if exists k :: RayTarget(b, enemy, r, c, d, i, k) && m == NewMove(Square(r, c), Step(r, c, d, k), b, false) {
      var k :| RayTarget(b, enemy, r, c, d, i, k) && m == NewMove(Square(r, c), Step(r, c, d, k), b, false);
      RayComplete(b, enemy, r, c, d, i, k);
    }
  }

  /** Every move of a ray goes to a reachable square. */
  lemma {:induction false} RaySound(b: Board, enemy: Color, r: int, c: int, d: Offset, i: int, m: Move)
    requires IsBoard(b) && OnBoard(Square(r, c)) && m in Ray(b, enemy, r, c, d, i)
    ensures exists k :: RayTarget(b, enemy, r, c, d, i, k) && m == NewMove(Square(r, c), Step(r, c, d, k), b, false)
    decreases 8 - i
  {
    var t := Step(r, c, d, i);
    if m == NewMove(Square(r, c), t, b, false) {
      assert RayTarget(b, enemy, r, c, d, i, i);
    } else {
      RaySound(b, enemy, r, c, d, i + 1, m);
      var k :| RayTarget(b, enemy, r, c, d, i + 1, k) && m == NewMove(Square(r, c), Step(r, c, d, k), b, false);
      assert RayTarget(b, enemy, r, c, d, i, k);
    }
  }

  /** Every reachable square is the end of a move of the ray. */
  lemma {:induction false} RayComplete(b: Board, enemy: Color, r: int, c: int, d: Offset, i: int, k: int)
    requires IsBoard(b) && OnBoard(Square(r, c)) && RayTarget(b, enemy, r, c, d, i, k)
    ensures NewMove(Square(r, c), Step(r, c, d, k), b, false) in Ray(b, enemy, r, c, d, i)
    decreases 8 - i
  {
    if k != i {
      assert OnBoard(Step(r, c, d, i)) && At(b, Step(r, c, d, i)) == Empty;
      assert RayTarget(b, enemy, r, c, d, i + 1, k);
      RayComplete(b, enemy, r, c, d, i + 1, k);
    }
  }

  // -------------------------------------------------------- knights, kings

  function Target(r: int, c: int, o: Offset): Square
  {
    Square(r + o.0, c + o.1)
  }

  /** A knight or king target is bounds-checked before the board is read; it
      is taken when it is empty or holds an enemy piece. */
  predicate StepTarget(b: Board, enemy: Color, r: int, c: int, o: Offset)
    requires IsBoard(b)
  {
    OnBoard(Target(r, c, o)) && (IsColor(At(b, Target(r, c, o)), enemy) || At(b, Target(r, c, o)) == Empty)
  }

  function StepTo(b: Board, enemy: Color, r: int, c: int, o: Offset): seq<Move>
    requires IsBoard(b) && OnBoard(Square(r, c))
  {
    if StepTarget(b, enemy, r, c, o) then [NewMove(Square(r, c), Target(r, c, o), b, false)] else []
  }

  /** The moves to the first k offsets of the table, in order. */
  function Steps(b: Board, enemy: Color, r: int, c: int, offsets: seq<Offset>, k: int): seq<Move>
    requires IsBoard(b) && OnBoard(Square(r, c)) && 0 <= k <= |offsets|
  {
    if k == 0 then [] else Steps(b, enemy, r, c, offsets, k - 1) + StepTo(b, enemy, r, c, offsets[k - 1])
  }

  function KnightMoves(b: Board, enemy: Color, r: int, c: int): seq<Move>
    requires IsBoard(b) && OnBoard(Square(r, c))
  {
    Steps(b, enemy, r, c, KnightOffsets, |KnightOffsets|)
  }

  function KingMoves(b: Board, enemy: Color, r: int, c: int): seq<Move>
    requires IsBoard(b) && OnBoard(Square(r, c))
  {
    Steps(b, enemy, r, c, KingOffsets, |KingOffsets|)
  }

  /** The step moves are exactly the moves to the valid targets of the table. */
  lemma {:induction false} StepsMembers(b: Board, enemy: Color, r: int, c: int, offsets: seq<Offset>, k: int, m: Move)
    requires IsBoard(b) && OnBoard(Square(r, c)) && 0 <= k <= |offsets|
    ensures m in Steps(b, enemy, r, c, offsets, k) <==>
            exists j :: 0 <= j < k && StepTarget(b, enemy, r, c, offsets[j]) &&
                        m == NewMove(Square(r, c), Target(r, c, offsets[j]), b, false)
  {
    if k > 0 {
      StepsMembers(b, enemy, r, c, offsets, k - 1, m);
      if m in StepTo(b, enemy, r, c, offsets[k - 1]) {
        assert StepTarget(b, enemy, r, c, offsets[k - 1]);
      }
    }
  }

  /** The king never steps straight towards the next row. */
  lemma KingNeverStepsToNextRow(b: Board, enemy: Color, r: int, c: int)
    requires IsBoard(b) && OnBoard(Square(r, c))
    ensures forall m :: m in KingMoves(b, enemy, r, c) ==> m.End() != Square(r + 1, c)
  {
    forall m | m in KingMoves(b, enemy, r, c)
      ensures m.End() != Square(r + 1, c)
    {
      StepsMembers(b, enemy, r, c, KingOffsets, |KingOffsets|, m);
      var j :| 0 <= j < |KingOffsets| && StepTarget(b, enemy, r, c, KingOffsets[j]) &&
               m == NewMove(Square(r, c), Target(r, c, KingOffsets[j]), b, false);
      assert KingOffsets[j] in KingOffsets;
      assert (1, 0) !in KingOffsets;
    }
  }

  /** When the square in front of the king towards row 0 is empty, the move
      there is listed twice. */
  lemma KingStepsBackTwice(b: Board, enemy: Color, r: int, c: int)
    requires IsBoard(b) && OnBoard(Square(r, c)) && r >= 1 && At(b, Square(r - 1, c)) == Empty
    ensures var ms := KingMoves(b, enemy, r, c);
            exists i, j :: 0 <= i < j < |ms| && ms[i] == ms[j] && ms[i].End() == Square(r - 1, c)
  {
    var ms := KingMoves(b, enemy, r, c);
    var front := Steps(b, enemy, r, c, KingOffsets, 4);
    var back := StepTo(b, enemy, r, c, (-1, 0));
    var s5 := StepTo(b, enemy, r, c, KingOffsets[5]);
    var s6 := StepTo(b, enemy, r, c, KingOffsets[6]);
    assert KingOffsets[4] == (-1, 0) && KingOffsets[7] == (-1, 0);
    assert |back| == 1 && back[0].End() == Square(r - 1, c);
    assert Steps(b, enemy, r, c, KingOffsets, 5) == front + back;
    assert Steps(b, enemy, r, c, KingOffsets, 6) == front + back + s5;
    assert Steps(b, enemy, r, c, KingOffsets, 7) == front + back + s5 + s6;
    assert ms == front + back + s5 + s6 + back;
    var i, j := |front|, |front| + 1 + |s5| + |s6|;
    assert ms[i] == back[0] && ms[j] == back[0];
  }

  // ------------------------------------------------------ the whole board

  /** The engine's dispatch from piece kind to generator. */
  function PieceMoves(b: Board, white: bool, ep: Option<Square>, r: int, c: int): seq<Move>
    requires IsBoard(b) && OnBoard(Square(r, c)) && At(b, Square(r, c)).Piece?
    requires At(b, Square(r, c)).kind == Pawn ==> OnBoard(Square(r + Forward(white), c))
  {
    var enemy := Opponent(ColorToMove(white));
    match At(b, Square(r, c)).kind
    case Pawn => PawnMoves(b, white, ep, r, c)
    case Rook => RookMoves(b, enemy, r, c)
    case Knight => KnightMoves(b, enemy, r, c)
    case Bishop => BishopMoves(b, enemy, r, c)
    case Queen => QueenMoves(b, enemy, r, c)
    case King => KingMoves(b, enemy, r, c)
  }

  /** The moves of the piece on (r, c) when it belongs to the side to move. */
  function SquareMoves(b: Board, white: bool, ep: Option<Square>, r: int, c: int): seq<Move>
    requires IsBoard(b) && PawnsInside(b) && 0 <= r < 8 && 0 <= c < 8
  {
    if IsColor(b[r][c], ColorToMove(white)) then PieceMoves(b, white, ep, r, c) else []
  }

  /** The moves from the first c squares of row r. */
  function RowMoves(b: Board, white: bool, ep: Option<Square>, r: int, c: int): seq<Move>
    requires IsBoard(b) && PawnsInside(b) && 0 <= r < 8 && 0 <= c <= 8
  {
    if c == 0 then [] else RowMoves(b, white, ep, r, c - 1) + SquareMoves(b, white, ep, r, c - 1)
  }

  /** The moves from the first r rows. */
  function BoardMoves(b: Board, white: bool, ep: Option<Square>, r: int): seq<Move>
    requires IsBoard(b) && PawnsInside(b) && 0 <= r <= 8
  {
    if r == 0 then [] else BoardMoves(b, white, ep, r - 1) + RowMoves(b, white, ep, r - 1, |b[r - 1]|)
  }

  /** One more square of the row scan: the moves of square (r, c) follow those
      of the squares before it. */
  lemma RowMovesNext(b: Board, white: bool, ep: Option<Square>, r: int, c: int,
                     start: seq<Move>, before: seq<Move>, after: seq<Move>)
    requires IsBoard(b) && PawnsInside(b) && 0 <= r < 8 && 0 <= c < 8
    requires before == start + RowMoves(b, white, ep, r, c)
    requires IsColor(b[r][c], ColorToMove(white)) ==> after == before + PieceMoves(b, white, ep, r, c)
    requires !IsColor(b[r][c], ColorToMove(white)) ==> after == before
    ensures after == start + RowMoves(b, white, ep, r, c + 1)
  {
    var here := SquareMoves(b, white, ep, r, c);
    assert RowMoves(b, white, ep, r, c + 1) == RowMoves(b, white, ep, r, c) + here;
    assert after == before + here;
    AppendStep(start, RowMoves(b, white, ep, r, c), here, before, after);
  }

  // The two lemmas below, like SlidesNext and RowMovesNext, state sequence
  // associativity on plain sequence variables.  The loops that call them
  // prove each step in a small context instead of unfolding the generator
  // functions next to the loop's own state.

  lemma AppendThree(start: seq<Move>, a: seq<Move>, x: seq<Move>, y: seq<Move>,
                    r1: seq<Move>, r2: seq<Move>, r3: seq<Move>)
    requires r1 == start + a && r2 == r1 + x && r3 == r2 + y
    ensures r3 == start + (a + (x + y))
  {
  }

  lemma AppendStep(start: seq<Move>, prev: seq<Move>, here: seq<Move>, before: seq<Move>, after: seq<Move>)
    requires before == start + prev && after == before + here
    ensures after == start + (prev + here)
  {
  }

  /** All pseudo-legal moves of the side to move. */
  function AllMoves(b: Board, white: bool, ep: Option<Square>): seq<Move>
    requires IsBoard(b) && PawnsInside(b)
  {
    BoardMoves(b, white, ep, |b|)
  }

  /** What every pseudo-legal move satisfies. */
  predicate Generated(b: Board, white: bool, ep: Option<Square>, m: Move)
    requires IsBoard(b)
  {
    OnBoard(m.Start()) && OnBoard(m.End()) && m.Start() != m.End() &&
    // it starts on a piece of the side to move and records the board it was built from
    IsColor(At(b, m.Start()), ColorToMove(white)) &&
    m == NewMove(m.Start(), m.End(), b, m.isEnpassantMove) &&
    if m.isEnpassantMove then
      // en passant: a pawn steps diagonally forward onto the en-passant target
      At(b, m.Start()).kind == Pawn && ep == Some(m.End()) &&
      m.endRow == m.startRow + Forward(white) && (m.endCol == m.startCol - 1 || m.endCol == m.startCol + 1)
    else
      // otherwise it lands on an empty square or on an enemy piece
      At(b, m.End()) == Empty || IsColor(At(b, m.End()), Opponent(ColorToMove(white)))
  }

  /** A move that lands on an empty square or an enemy piece, from start. */
  predicate Lands(b: Board, enemy: Color, start: Square, m: Move)
    requires IsBoard(b) && OnBoard(start)
  {
    m.Start() == start && OnBoard(m.End()) && !m.isEnpassantMove &&
    m == NewMove(start, m.End(), b, false) &&
    (At(b, m.End()) == Empty || IsColor(At(b, m.End()), enemy))
  }

  /** Every move of ms lands on an empty square or an enemy piece, from start. */
  predicate AllLand(b: Board, enemy: Color, start: Square, ms: seq<Move>)
    requires IsBoard(b) && OnBoard(start)
  {
    ms == [] || (Lands(b, enemy, start, ms[0]) && AllLand(b, enemy, start, ms[1..]))
  }

  lemma {:induction false} AllLandMembers(b: Board, enemy: Color, start: Square, ms: seq<Move>)
    requires IsBoard(b) && OnBoard(start)
    ensures AllLand(b, enemy, start, ms) <==> forall m :: m in ms ==> Lands(b, enemy, start, m)
  {
    if ms != [] {
      AllLandMembers(b, enemy, start, ms[1..]);
      assert forall m :: m in ms <==> m == ms[0] || m in ms[1..];
    }
  }

  lemma {:induction false} SlidesAllLand(b: Board, enemy: Color, r: int, c: int, dirs: seq<Offset>, k: int)
    requires IsBoard(b) && OnBoard(Square(r, c)) && 0 <= k <= |dirs|
    ensures AllLand(b, enemy, Square(r, c), Slides(b, enemy, r, c, dirs, k))
  {
    if k > 0 {
      SlidesAllLand(b, enemy, r, c, dirs, k - 1);
      RayLands(b, enemy, r, c, dirs[k - 1]);
      LandsAppend(b, enemy, Square(r, c), Slides(b, enemy, r, c, dirs, k - 1), Ray(b, enemy, r, c, dirs[k - 1], 1),
                  Slides(b, enemy, r, c, dirs, k));
    }
  }

  lemma SlidesLand(b: Board, enemy: Color, r: int, c: int, dirs: seq<Offset>, k: int)
    requires IsBoard(b) && OnBoard(Square(r, c)) && 0 <= k <= |dirs|
    ensures forall m :: m in Slides(b, enemy, r, c, dirs, k) ==> Lands(b, enemy, Square(r, c), m)
  {
    SlidesAllLand(b, enemy, r, c, dirs, k);
    AllLandMembers(b, enemy, Square(r, c), Slides(b, enemy, r, c, dirs, k));
  }

  lemma RayLands(b: Board, enemy: Color, r: int, c: int, d: Offset)
    requires IsBoard(b) && OnBoard(Square(r, c))
    ensures AllLand(b, enemy, Square(r, c), Ray(b, enemy, r, c, d, 1))
  {
    forall m | m in Ray(b, enemy, r, c, d, 1)
      ensures Lands(b, enemy, Square(r, c), m)
    {
      RayMembers(b, enemy, r, c, d, 1, m);
    }
    AllLandMembers(b, enemy, Square(r, c), Ray(b, enemy, r, c, d, 1));
  }

  lemma {:induction false} LandsAppend(b: Board, enemy: Color, start: Square, xs: seq<Move>, ys: seq<Move>, zs: seq<Move>)
    requires IsBoard(b) && OnBoard(start) && zs == xs + ys
    requires AllLand(b, enemy, start, xs) && AllLand(b, enemy, start, ys)
    ensures AllLand(b, enemy, start, zs)
    decreases xs
  {
    if xs == [] {
      assert zs == ys;
    } else {
      assert zs[0] == xs[0] && zs[1..] == xs[1..] + ys;
      LandsAppend(b, enemy, start, xs[1..], ys, zs[1..]);
    }
  }

  lemma StepsLand(b: Board, enemy: Color, r: int, c: int, offsets: seq<Offset>)
    requires IsBoard(b) && OnBoard(Square(r, c))
    ensures forall m :: m in Steps(b, enemy, r, c, offsets, |offsets|) ==> Lands(b, enemy, Square(r, c), m)
  {
    forall m | m in Steps(b, enemy, r, c, offsets, |offsets|)
      ensures Lands(b, enemy, Square(r, c), m)
    {
      StepsMembers(b, enemy, r, c, offsets, |offsets|, m);
    }
  }

  lemma SquareMovesGenerated(b: Board, white: bool, ep: Option<Square>, r: int, c: int)
    requires IsBoard(b) && PawnsInside(b) && 0 <= r < 8 && 0 <= c < 8
    ensures forall m :: m in SquareMoves(b, white, ep, r, c) ==> Generated(b, white, ep, m)
  {
    var cell := b[r][c];
    if IsColor(cell, ColorToMove(white)) {
      var enemy := Opponent(ColorToMove(white));
      match cell.kind
      case Pawn => PawnMovesFollowRules(b, white, ep, r, c);
      case Rook => SlidesLand(b, enemy, r, c, RookDirections, |RookDirections|);
      case Bishop => SlidesLand(b, enemy, r, c, BishopDirections, |BishopDirections|);
      case Queen => SlidesLand(b, enemy, r, c, QueenDirections, |QueenDirections|);
      case Knight => StepsLand(b, enemy, r, c, KnightOffsets);
      case King => StepsLand(b, enemy, r, c, KingOffsets);
    }
  }

  lemma {:induction false} RowMovesGenerated(b: Board, white: bool, ep: Option<Square>, r: int, c: int)
    requires IsBoard(b) && PawnsInside(b) && 0 <= r < 8 && 0 <= c <= 8
    ensures forall m :: m in RowMoves(b, white, ep, r, c) ==> Generated(b, white, ep, m)
  {
    if c > 0 {
      RowMovesGenerated(b, white, ep, r, c - 1);
      SquareMovesGenerated(b, white, ep, r, c - 1);
    }
  }

  lemma {:induction false} BoardMovesGenerated(b: Board, white: bool, ep: Option<Square>, r: int)
    requires IsBoard(b) && PawnsInside(b) && 0 <= r <= 8
    ensures forall m :: m in BoardMoves(b, white, ep, r) ==> Generated(b, white, ep, m)
  {
    if r > 0 {
      BoardMovesGenerated(b, white, ep, r - 1);
      RowMovesGenerated(b, white, ep, r - 1, |b[r - 1]|);
    }
  }

  /** Every pseudo-legal move starts on a piece of the side to move, stays on
      the board, and lands on an empty or enemy square, or is an en-passant
      capture onto the en-passant target. */
  lemma AllMovesGenerated(b: Board, white: bool, ep: Option<Square>)
    requires IsBoard(b) && PawnsInside(b)
    ensures forall m :: m in AllMoves(b, white, ep) ==> Generated(b, white, ep, m)
  {
    BoardMovesGenerated(b, white, ep, |b|);
  }

  // ----------------------------------------------- where a move comes from

  /** Membership in a concatenation, on plain sequences.  Dafny proves it
      unaided; the scan lemmas call it so that each level meets this fact on
      two named sequences rather than on the unfolded scan. */
  lemma InAppend(m: Move, a: seq<Move>, x: seq<Move>)
    ensures m in a + x <==> m in a || m in x
  {
  }

  /** Every move of a row comes from one of its first c squares. */
  lemma {:induction false} RowMovesFrom(b: Board, white: bool, ep: Option<Square>, r: int, c: int, m: Move)
    requires IsBoard(b) && PawnsInside(b) && 0 <= r < 8 && 0 <= c <= 8
    requires m in RowMoves(b, white, ep, r, c)
    ensures exists j :: 0 <= j < c && m in SquareMoves(b, white, ep, r, j)
  {
    var prev := RowMoves(b, white, ep, r, c - 1);
    var here := SquareMoves(b, white, ep, r, c - 1);
    assert RowMoves(b, white, ep, r, c) == prev + here;
    InAppend(m, prev, here);
    if m !in here {
      RowMovesFrom(b, white, ep, r, c - 1, m);
    }
  }

  /** Every move of the first r rows comes from one of their squares. */
  lemma {:induction false} BoardMovesFrom(b: Board, white: bool, ep: Option<Square>, r: int, m: Move)
    requires IsBoard(b) && PawnsInside(b) && 0 <= r <= 8
    requires m in BoardMoves(b, white, ep, r)
    ensures exists i, j :: 0 <= i < r && 0 <= j < 8 && m in SquareMoves(b, white, ep, i, j)
  {
    var prev := BoardMoves(b, white, ep, r - 1);
    var last := RowMoves(b, white, ep, r - 1, |b[r - 1]|);
    assert BoardMoves(b, white, ep, r) == prev + last;
    InAppend(m, prev, last);
    if m in last {
      RowMovesFrom(b, white, ep, r - 1, |b[r - 1]|, m);
      var j :| 0 <= j < 8 && m in SquareMoves(b, white, ep, r - 1, j);
    } else {
      BoardMovesFrom(b, white, ep, r - 1, m);
      var i, j :| 0 <= i < r - 1 && 0 <= j < 8 && m in SquareMoves(b, white, ep, i, j);
    }
  }

  /** Every pseudo-legal move is generated by the piece on one square. */
  lemma AllMovesFrom(b: Board, white: bool, ep: Option<Square>, m: Move)
    requires IsBoard(b) && PawnsInside(b) && m in AllMoves(b, white, ep)
    ensures exists r, c :: 0 <= r < 8 && 0 <= c < 8 && m in SquareMoves(b, white, ep, r, c)
  {
    BoardMovesFrom(b, white, ep, |b|, m);
  }

  // ----------------------------------------------- where a move is found

  /** The moves of square (r, j) are among the moves of the first c squares
      of row r, for every j < c. */
  lemma {:induction false} RowMovesComplete(b: Board, white: bool, ep: Option<Square>, r: int, c: int, j: int, m: Move)
    requires IsBoard(b) && PawnsInside(b) && 0 <= r < 8 && 0 <= j < c <= 8
    requires m in SquareMoves(b, white, ep, r, j)
    ensures m in RowMoves(b, white, ep, r, c)
  {
    var prev := RowMoves(b, white, ep, r, c - 1);
    var here := SquareMoves(b, white, ep, r, c - 1);
    assert RowMoves(b, white, ep, r, c) == prev + here;
    if j < c - 1 {
      RowMovesComplete(b, white, ep, r, c - 1, j, m);
      InAppend(m, prev, here);
    } else {
      InAppend(m, prev, here);
    }
  }

  /** The moves of square (i, j) are among the moves of the first rows rows,
      for every i < rows. */
  lemma {:induction false} BoardMovesComplete(b: Board, white: bool, ep: Option<Square>, rows: int, i: int, j: int, m: Move)
    requires IsBoard(b) && PawnsInside(b) && 0 <= i < rows <= 8 && 0 <= j < 8
    requires m in SquareMoves(b, white, ep, i, j)
    ensures m in BoardMoves(b, white, ep, rows)
  {
    var prev := BoardMoves(b, white, ep, rows - 1);
    var last := RowMoves(b, white, ep, rows - 1, |b[rows - 1]|);
    assert BoardMoves(b, white, ep, rows) == prev + last;
    if i < rows - 1 {
      BoardMovesComplete(b, white, ep, rows - 1, i, j, m);
      InAppend(m, prev, last);
    } else {
      RowMovesComplete(b, white, ep, i, |b[i]|, j, m);
      InAppend(m, prev, last);
    }
  }

  /** The scan misses no square: every move of every square is a pseudo-legal
      move.  With AllMovesFrom, the pseudo-legal moves are exactly the moves
      of the squares. */
  lemma AllMovesComplete(b: Board, white: bool, ep: Option<Square>, r: int, c: int, m: Move)
    requires IsBoard(b) && PawnsInside(b) && 0 <= r < 8 && 0 <= c < 8
    requires m in SquareMoves(b, white, ep, r, c)
    ensures m in AllMoves(b, white, ep)
  {
    BoardMovesComplete(b, white, ep, |b|, r, c, m);
  }

  /** The moves of a square are the moves of its piece, which belongs to the
      side to move. */
  lemma SquareMovesPiece(b: Board, white: bool, ep: Option<Square>, r: int, c: int, m: Move)
    requires IsBoard(b) && PawnsInside(b) && 0 <= r < 8 && 0 <= c < 8 && m in SquareMoves(b, white, ep, r, c)
    ensures IsColor(b[r][c], ColorToMove(white)) && m in PieceMoves(b, white, ep, r, c)
  {
  }

  /** The moves of a piece start on its square and move it. */
  lemma PieceMovesStart(b: Board, white: bool, ep: Option<Square>, r: int, c: int, m: Move)
    requires IsBoard(b) && PawnsInside(b) && 0 <= r < 8 && 0 <= c < 8
    requires IsColor(b[r][c], ColorToMove(white)) && m in PieceMoves(b, white, ep, r, c)
    ensures m.Start() == Square(r, c) && m.pieceMoved == b[r][c]
  {
    if b[r][c].kind == Pawn {
      PawnPieceMoves(b, white, ep, r, c, m);
    } else {
      PieceMovesLand(b, white, ep, r, c, m);
    }
  }

  /** The moves of a pawn of the side to move follow the pawn rules. */
  lemma PawnPieceMoves(b: Board, white: bool, ep: Option<Square>, r: int, c: int, m: Move)
    requires IsBoard(b) && PawnsInside(b) && 0 <= r < 8 && 0 <= c < 8
    requires IsColor(b[r][c], ColorToMove(white)) && b[r][c].kind == Pawn && m in PieceMoves(b, white, ep, r, c)
    ensures OnBoard(Square(r + Forward(white), c)) && PawnRule(b, white, ep, r, c, m)
    ensures m.Start() == Square(r, c) && m.pieceMoved == b[r][c]
  {
    assert b[r][c] == At(b, Square(r, c));
    PawnMovesFollowRules(b, white, ep, r, c);
  }

  /** The moves of a piece other than a pawn start on it and land on an empty
      square or an enemy piece. */
  lemma PieceMovesLand(b: Board, white: bool, ep: Option<Square>, r: int, c: int, m: Move)
    requires IsBoard(b) && PawnsInside(b) && 0 <= r < 8 && 0 <= c < 8
    requires IsColor(b[r][c], ColorToMove(white)) && b[r][c].kind != Pawn && m in PieceMoves(b, white, ep, r, c)
    ensures Lands(b, Opponent(ColorToMove(white)), Square(r, c), m)
    ensures m.Start() == Square(r, c) && m.pieceMoved == b[r][c]
  {
    var enemy := Opponent(ColorToMove(white));
    match b[r][c].kind
    case Rook => SlidesLand(b, enemy, r, c, RookDirections, |RookDirections|);
    case Bishop => SlidesLand(b, enemy, r, c, BishopDirections, |BishopDirections|);
    case Queen => SlidesLand(b, enemy, r, c, QueenDirections, |QueenDirections|);
    case Knight => StepsLand(b, enemy, r, c, KnightOffsets);
    case King => StepsLand(b, enemy, r, c, KingOffsets);
  }

  /** A pseudo-legal pawn move of two rows is the double step of a pawn of the
      side to move from its home row, straight ahead across an empty square
      onto an empty square. */
  lemma DoubleStepShape(b: Board, white: bool, ep: Option<Square>, m: Move)
    requires IsBoard(b) && PawnsInside(b) && m in AllMoves(b, white, ep)
    requires m.pieceMoved.Piece? && m.pieceMoved.kind == Pawn
    requires m.startRow - m.endRow == 2 || m.endRow - m.startRow == 2
    ensures m.pieceMoved == Piece(ColorToMove(white), Pawn) && !m.isEnpassantMove
    ensures m.startRow == HomeRow(white) && m.endRow == m.startRow + 2 * Forward(white) && m.endCol == m.startCol
    ensures OnBoard(m.Start()) && OnBoard(m.End())
    ensures At(b, Square(m.startRow + Forward(white), m.startCol)) == Empty && At(b, m.End()) == Empty
  {
    AllMovesFrom(b, white, ep, m);
    var r, c :| 0 <= r < 8 && 0 <= c < 8 && m in SquareMoves(b, white, ep, r, c);
    SquareMovesPiece(b, white, ep, r, c, m);
    PieceMovesStart(b, white, ep, r, c, m);
    PawnPieceMoves(b, white, ep, r, c, m);
  }

  // ------------------------------------------------- the starting position

  /** A direction that moves at most one row and one column per step. */
  predicate Short(d: Offset)
  {
    -1 <= d.0 <= 1 && -1 <= d.1 <= 1
  }

  /** From White's back rank every short ray stops at once: at the edge or at
      a white piece. */
  lemma InitialRayEmpty(c: int, d: Offset)
    requires 0 <= c < 8 && Short(d)
    ensures Ray(InitialBoard(), Black, 7, c, d, 1) == []
  {
    var t := Step(7, c, d, 1);
    if OnBoard(t) {
      assert At(InitialBoard(), t) == InitialCell(t.row, t.col);
    }
  }

  /** Directions whose first step is blocked contribute no slides. */
  lemma {:induction false} SlidesEmpty(b: Board, enemy: Color, r: int, c: int, dirs: seq<Offset>, k: int)
    requires IsBoard(b) && OnBoard(Square(r, c)) && 0 <= k <= |dirs|
    requires forall j :: 0 <= j < k ==> Ray(b, enemy, r, c, dirs[j], 1) == []
    ensures Slides(b, enemy, r, c, dirs, k) == []
  {
    if k > 0 {
      SlidesEmpty(b, enemy, r, c, dirs, k - 1);
      assert Ray(b, enemy, r, c, dirs[k - 1], 1) == [];
    }
  }

  /** A white sliding piece on the back rank has no move at the start. */
  lemma InitialSlidesEmpty(c: int, dirs: seq<Offset>)
    requires 0 <= c < 8 && forall j :: 0 <= j < |dirs| ==> Short(dirs[j])
    ensures Slides(InitialBoard(), Black, 7, c, dirs, |dirs|) == []
  {
    forall j | 0 <= j < |dirs|
      ensures Ray(InitialBoard(), Black, 7, c, dirs[j], 1) == []
    {
      InitialRayEmpty(c, dirs[j]);
    }
    SlidesEmpty(InitialBoard(), Black, 7, c, dirs, |dirs|);
  }

  /** The moves to a table of offsets go at most -lo rows towards row 0. */
  lemma StepsStayBack(b: Board, enemy: Color, r: int, c: int, offsets: seq<Offset>, lo: int, m: Move)
    requires IsBoard(b) && OnBoard(Square(r, c)) && m in Steps(b, enemy, r, c, offsets, |offsets|)
    requires forall j :: 0 <= j < |offsets| ==> offsets[j].0 >= lo
    ensures m.endRow >= r + lo
  {
    StepsMembers(b, enemy, r, c, offsets, |offsets|, m);
  }

  /** White's pieces start on rows 6 and 7, its pawns on row 6. */
  lemma InitialWhitePieces(r: int, c: int)
    requires 0 <= r < 8 && 0 <= c < 8 && IsColor(InitialCell(r, c), White)
    ensures r == 6 || r == 7
    ensures InitialCell(r, c).kind == Pawn <==> r == 6
  {
  }

  /** In the starting position a white piece on (r, c) reaches no further
      than row 4. */
  lemma InitialSquareMovesStayBack(r: int, c: int, m: Move)
    requires 0 <= r < 8 && 0 <= c < 8 && m in SquareMoves(InitialBoard(), true, None, r, c)
    ensures m.endRow >= 4
  {
    var b := InitialBoard();
    SquareMovesPiece(b, true, None, r, c, m);
    assert b[r][c] == InitialCell(r, c);
    InitialWhitePieces(r, c);
    InitialPieceMovesStayBack(r, c, b[r][c].kind, m);
  }

  /** Every sliding direction moves at most one row and one column per step. */
  lemma DirectionsShort()
    ensures forall j :: 0 <= j < |RookDirections| ==> Short(RookDirections[j])
    ensures forall j :: 0 <= j < |BishopDirections| ==> Short(BishopDirections[j])
    ensures forall j :: 0 <= j < |QueenDirections| ==> Short(QueenDirections[j])
  {
  }

  /** A knight moves back at most two rows, a king at most one. */
  lemma OffsetsReachBack()
    ensures forall j :: 0 <= j < |KnightOffsets| ==> KnightOffsets[j].0 >= -2
    ensures forall j :: 0 <= j < |KingOffsets| ==> KingOffsets[j].0 >= -1
  {
  }

  /** The same, piece kind by piece kind. */
  lemma InitialPieceMovesStayBack(r: int, c: int, kind: Kind, m: Move)
    requires (r == 6 || r == 7) && 0 <= c < 8 && InitialBoard()[r][c] == Piece(White, kind)
    requires kind == Pawn <==> r == 6
    requires m in PieceMoves(InitialBoard(), true, None, r, c)
    ensures m.endRow >= 4
  {
    var b := InitialBoard();
    DirectionsShort();
    OffsetsReachBack();
    match kind
    case Pawn =>
      PawnPieceMoves(b, true, None, r, c, m);
    case Knight =>
      StepsStayBack(b, Black, r, c, KnightOffsets, -2, m);
    case King =>
      StepsStayBack(b, Black, r, c, KingOffsets, -1, m);
    case Rook =>
      InitialSlidesEmpty(c, RookDirections);
    case Bishop =>
      InitialSlidesEmpty(c, BishopDirections);
    case Queen =>
      InitialSlidesEmpty(c, QueenDirections);
  }

  /** No move of White in the starting position reaches beyond row 4; in
      particular none attacks the black king. */
  lemma InitialWhiteMovesStayBack()
    ensures forall m :: m in AllMoves(InitialBoard(), true, None) ==> m.endRow >= 4
  {
    forall m | m in AllMoves(InitialBoard(), true, None)
      ensures m.endRow >= 4
    {
      AllMovesFrom(InitialBoard(), true, None, m);
      var r, c :| 0 <= r < 8 && 0 <= c < 8 && m in SquareMoves(InitialBoard(), true, None, r, c);
      InitialSquareMovesStayBack(r, c, m);
    }
  }

  // ------------------------------------- independence from the ep target

  /** The moves that are not en-passant captures, in order. */
  function NonEnPassant(ms: seq<Move>): seq<Move>
  {
    if ms == [] then []
    else (if ms[0].isEnpassantMove then [] else [ms[0]]) + NonEnPassant(ms[1..])
  }

  /** NonEnPassant drops exactly the en-passant captures. */
  lemma {:induction false} NonEnPassantMembers(ms: seq<Move>)
    ensures forall m :: m in NonEnPassant(ms) <==> m in ms && !m.isEnpassantMove
  {
    if ms != [] {
      NonEnPassantMembers(ms[1..]);
      assert forall m :: m in ms <==> m == ms[0] || m in ms[1..];
    }
  }

  lemma {:induction false} NonEnPassantAppend(a: seq<Move>, b: seq<Move>)
    ensures NonEnPassant(a + b) == NonEnPassant(a) + NonEnPassant(b)
  {
    if a != [] {
      var head := if a[0].isEnpassantMove then [] else [a[0]];
      assert (a + b)[0] == a[0];
      assert (a + b)[1..] == a[1..] + b;
      NonEnPassantAppend(a[1..], b);
      calc {
        NonEnPassant(a + b);
        head + NonEnPassant(a[1..] + b);
        head + (NonEnPassant(a[1..]) + NonEnPassant(b));
        (head + NonEnPassant(a[1..])) + NonEnPassant(b);
        NonEnPassant(a) + NonEnPassant(b);
      }
    } else {
      assert a + b == b;
    }
  }

  lemma {:induction false} NonEnPassantOfPlain(ms: seq<Move>)
    requires forall m :: m in ms ==> !m.isEnpassantMove
    ensures NonEnPassant(ms) == ms
  {
    if ms != [] {
      assert ms[0] in ms;
      NonEnPassantOfPlain(ms[1..]);
    }
  }

  lemma PawnCaptureIgnoresEnPassant(b: Board, white: bool, ep: Option<Square>, r: int, c: int, dc: int)
    requires IsBoard(b) && OnBoard(Square(r, c)) && OnBoard(Square(r + Forward(white), c))
    ensures PawnCapture(b, white, None, r, c, dc) == NonEnPassant(PawnCapture(b, white, ep, r, c, dc))
  {
    var ms := PawnCapture(b, white, ep, r, c, dc);
    if ms != [] {
      assert |ms| == 1 && ms[1..] == [];
    }
  }

  lemma PawnMovesIgnoreEnPassant(b: Board, white: bool, ep: Option<Square>, r: int, c: int)
    requires IsBoard(b) && OnBoard(Square(r, c)) && OnBoard(Square(r + Forward(white), c))
    ensures PawnMoves(b, white, None, r, c) == NonEnPassant(PawnMoves(b, white, ep, r, c))
  {
    var x := FirstSide(white);
    PawnCaptureIgnoresEnPassant(b, white, ep, r, c, x);
    PawnCaptureIgnoresEnPassant(b, white, ep, r, c, -x);
    PawnAdvancePlain(b, white, r, c);
    NonEnPassantOfThree(PawnAdvance(b, white, r, c), PawnCapture(b, white, ep, r, c, x), PawnCapture(b, white, ep, r, c, -x));
  }

  lemma PawnAdvancePlain(b: Board, white: bool, r: int, c: int)
    requires IsBoard(b) && OnBoard(Square(r, c)) && OnBoard(Square(r + Forward(white), c))
    ensures NonEnPassant(PawnAdvance(b, white, r, c)) == PawnAdvance(b, white, r, c)
  {
    NonEnPassantOfPlain(PawnAdvance(b, white, r, c));
  }

  lemma NonEnPassantOfThree(a: seq<Move>, b: seq<Move>, c: seq<Move>)
    requires NonEnPassant(a) == a
    ensures NonEnPassant(a + (b + c)) == a + (NonEnPassant(b) + NonEnPassant(c))
  {
    NonEnPassantAppend(b, c);
    NonEnPassantAppend(a, b + c);
  }

  lemma SquareMovesIgnoreEnPassant(b: Board, white: bool, ep: Option<Square>, r: int, c: int)
    requires IsBoard(b) && PawnsInside(b) && 0 <= r < 8 && 0 <= c < 8
    ensures SquareMoves(b, white, None, r, c) == NonEnPassant(SquareMoves(b, white, ep, r, c))
  {
    var cell := b[r][c];
    if IsColor(cell, ColorToMove(white)) {
      var enemy := Opponent(ColorToMove(white));
      match cell.kind
      case Pawn => PawnMovesIgnoreEnPassant(b, white, ep, r, c);
      case Rook =>
        SlidesLand(b, enemy, r, c, RookDirections, |RookDirections|);
        NonEnPassantOfPlain(RookMoves(b, enemy, r, c));
      case Bishop =>
        SlidesLand(b, enemy, r, c, BishopDirections, |BishopDirections|);
        NonEnPassantOfPlain(BishopMoves(b, enemy, r, c));
      case Queen =>
        SlidesLand(b, enemy, r, c, QueenDirections, |QueenDirections|);
        NonEnPassantOfPlain(QueenMoves(b, enemy, r, c));
      case Knight =>
        StepsLand(b, enemy, r, c, KnightOffsets);
        NonEnPassantOfPlain(KnightMoves(b, enemy, r, c));
      case King =>
        StepsLand(b, enemy, r, c, KingOffsets);
        NonEnPassantOfPlain(KingMoves(b, enemy, r, c));
    }
  }

  lemma {:induction false} RowMovesIgnoreEnPassant(b: Board, white: bool, ep: Option<Square>, r: int, c: int)
    requires IsBoard(b) && PawnsInside(b) && 0 <= r < 8 && 0 <= c <= 8
    ensures RowMoves(b, white, None, r, c) == NonEnPassant(RowMoves(b, white, ep, r, c))
  {
    if c > 0 {
      RowMovesIgnoreEnPassant(b, white, ep, r, c - 1);
      SquareMovesIgnoreEnPassant(b, white, ep, r, c - 1);
      NonEnPassantAppend(RowMoves(b, white, ep, r, c - 1), SquareMoves(b, white, ep, r, c - 1));
    }
  }

  lemma {:induction false} BoardMovesIgnoreEnPassant(b: Board, white: bool, ep: Option<Square>, r: int)
    requires IsBoard(b) && PawnsInside(b) && 0 <= r <= 8
    ensures BoardMoves(b, white, None, r) == NonEnPassant(BoardMoves(b, white, ep, r))
  {
    if r > 0 {
      BoardMovesIgnoreEnPassant(b, white, ep, r - 1);
      RowMovesIgnoreEnPassant(b, white, ep, r - 1, |b[r - 1]|);
      NonEnPassantAppend(BoardMoves(b, white, ep, r - 1), RowMoves(b, white, ep, r - 1, |b[r - 1]|));
    }
  }

  /** Without an en-passant target the generator lists the same moves minus
      the en-passant captures. */
  lemma AllMovesIgnoreEnPassant(b: Board, white: bool, ep: Option<Square>)
    requires IsBoard(b) && PawnsInside(b)
    ensures AllMoves(b, white, None) == NonEnPassant(AllMoves(b, white, ep))
  {
    BoardMovesIgnoreEnPassant(b, white, ep, |b|);
  }

  // ---------------------------------------------------------------- attacks

  /** Some pseudo-legal move of the given side ends on sq: only a square on
      the board that holds none of that side's own pieces (the en-passant
      target aside) can be attacked. */
  predicate Attacked(b: Board, byWhite: bool, ep: Option<Square>, sq: Square)
    requires IsBoard(b) && PawnsInside(b)
    ensures Attacked(b, byWhite, ep, sq) ==>
              OnBoard(sq) && (ep != Some(sq) ==> !IsColor(At(b, sq), ColorToMove(byWhite)))
  {
    AllMovesGenerated(b, byWhite, ep);
    exists m :: m in AllMoves(b, byWhite, ep) && m.End() == sq
  }

  /** Whether a square is attacked does not depend on the en-passant target,
      unless the square is that target. */
  lemma AttackedIgnoresEnPassant(b: Board, byWhite: bool, ep: Option<Square>, sq: Square)
    requires IsBoard(b) && PawnsInside(b) && ep != Some(sq)
    ensures Attacked(b, byWhite, ep, sq) <==> Attacked(b, byWhite, None, sq)
  {
    AllMovesIgnoreEnPassant(b, byWhite, ep);
    NonEnPassantMembers(AllMoves(b, byWhite, ep));
    AllMovesGenerated(b, byWhite, ep);
    if Attacked(b, byWhite, ep, sq) {
      var m :| m in AllMoves(b, byWhite, ep) && m.End() == sq;
      assert m in AllMoves(b, byWhite, None);
    }
    if Attacked(b, byWhite, None, sq) {
      var m :| m in AllMoves(b, byWhite, None) && m.End() == sq;
      assert m in AllMoves(b, byWhite, ep);
    }
  }
}
