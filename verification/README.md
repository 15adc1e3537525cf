# Chess engine core, modelled in Dafny

This project models the engine of a two-player chess game: the game state
(`GameState`) and the move value (`Move`) of `Chess/Chess/ChessEngine.py`.
The game state holds an 8x8 board of cells ("--" for empty, otherwise a
colour letter and a kind letter), whose turn it is, the move log, cached
squares for both kings, the en-passant target and the checkmate and
stalemate flags. It makes and undoes moves in place. It generates the
pseudo-legal moves of the side to move by scanning the board and dispatching
each piece to the generator for its kind: pawn advances and captures with en
passant, rays for rooks, bishops and queens, and fixed offset tables for
knights and kings. It then filters these moves down to the legal ones by
making each move, asking whether the mover's king is now attacked, and
undoing the move. Promotion always gives a queen. Castling is not part of
the engine.

The project has five modules:

- `Pieces`: cells, squares, the board as `seq<seq<Cell>>`, single-cell
  writes (`Put`) and the starting board.
- `Moves`: the `Move` datatype and its constructor `NewMove`, move
  equality by move identifier, and coordinate notation with the rank and
  file tables.
- `Generation`: the pseudo-legal move generators as pure functions that
  list the moves in the engine's order. Lemmas state the movement rules the
  generators obey.
- `Rules`: the game state as a value (`Position`) and `AfterMove` /
  `AfterUndo`, the effect of making and undoing a move. It also holds the
  make/undo round trip, the soundness invariant of positions reached by
  play, check, and the legality filter `Keep` / `LegalMoves`.
- `Engine`: the class `GameState`. Its fields are updated in place, and
  each method is proved against the functions of `Generation` and `Rules`.

## Model

| member | source | states |
|---|---|---|
| `Pieces.Put` | Chess/Chess/ChessEngine.py:33-34 | a single-cell write keeps the board 8x8 and the written square then holds the written cell |
| `Pieces.PutLeavesOthers` | Chess/Chess/ChessEngine.py:33-34 | a single-cell write leaves every other square unchanged |
| `Pieces.InitialBoard` | Chess/Chess/ChessEngine.py:12-20 | the starting board is 8x8: black back rank on row 0, black pawns on row 1, white pawns on row 6, white back rank on row 7, every other square empty; no pawn stands on a promotion row |
| `Pieces.InitialBoardShape` | Chess/Chess/ChessEngine.py:12-26 | at the start each side has exactly one king, on the square its cache names ((7,4) for White, (0,4) for Black) |
| `Moves.NewMove` | Chess/Chess/ChessEngine.py:298-312 | a constructed move keeps its squares and its en-passant flag; the moved piece is read from the start square; the captured piece is read from the end square, or is the opposing pawn for an en-passant pawn capture; the promotion flag is set exactly when a pawn reaches its far row |
| `Moves.Move.Equals` | Chess/Chess/ChessEngine.py:316-327 | two on-board moves are equal by move identifier exactly when they have the same start and end squares; pieces and flags play no part |
| `Moves.FileToCol` | Chess/Chess/ChessEngine.py:294-295 | the file table is defined exactly on 'a' to 'h' and maps into columns 0 to 7 |
| `Moves.RankToRow` | Chess/Chess/ChessEngine.py:291-292 | the rank table is defined exactly on '1' to '8' and maps into rows 0 to 7 |
| `Moves.ColToFile` | Chess/Chess/ChessEngine.py:296 | the column-to-file table inverts the file table |
| `Moves.RowToRank` | Chess/Chess/ChessEngine.py:293 | the row-to-rank table inverts the rank table |
| `Moves.TablesInverse` | Chess/Chess/ChessEngine.py:291-296 | each derived table also inverts its original table in the other direction |
| `Moves.RankFile` | Chess/Chess/ChessEngine.py:332-333 | a square prints as two characters, file then rank, and reading those two characters back gives the same square |
| `Moves.Move.ChessNotation` | Chess/Chess/ChessEngine.py:329-330 | the notation is four characters (start file, start rank, end file, end rank), and parsing it gives back the move's two squares |
| `Moves.NotationIdentifiesMove` | Chess/Chess/ChessEngine.py:324-333 | two on-board moves print the same notation exactly when they are equal |
| `Generation.PawnMovesFollowRules` | Chess/Chess/ChessEngine.py:163-193 | every pawn move is one of four kinds: a one-square advance onto an empty square; a two-square advance from the home row across and onto empty squares; a diagonal capture of an enemy piece; or a diagonal en-passant capture onto the target square. With `PawnMovesComplete`, the pawn's moves are exactly the moves of these four kinds |
| `Generation.PawnMovesComplete` | Chess/Chess/ChessEngine.py:163-193 | every move of the four kinds of `PawnRule` is generated: the advances when the squares are empty, the captures of enemy pieces on both diagonals, and the capture onto the en-passant target |
| `Generation.PawnAdvanceFollowsRules` | Chess/Chess/ChessEngine.py:165-168 | every pawn advance is a one-square or home-row two-square advance onto empty squares |
| `Generation.PawnCaptureFollowsRules` | Chess/Chess/ChessEngine.py:169-178 | every diagonal pawn move stays on the board and either captures an enemy piece or is an en passant onto the target |
| `Generation.RayMembers` | Chess/Chess/ChessEngine.py:200-214 | a ray contains exactly the moves to its reachable squares: on the board, past only empty squares, onto an empty square or an enemy piece |
| `Generation.RaySound` | Chess/Chess/ChessEngine.py:201-214 | every move of a ray goes to a reachable square |
| `Generation.RayComplete` | Chess/Chess/ChessEngine.py:201-214 | every reachable square of a direction is the end of a move of its ray |
| `Generation.SlidesLand` | Chess/Chess/ChessEngine.py:234-273 | every rook, bishop or queen move starts on the piece, is no en passant, stays on the board and lands on an empty square or an enemy piece |
| `Generation.StepsMembers` | Chess/Chess/ChessEngine.py:219-226 | the knight or king moves are exactly the moves to those table targets that are on the board and empty or enemy-held |
| `Generation.StepsLand` | Chess/Chess/ChessEngine.py:280-286 | every knight or king move stays on the board and lands on an empty square or an enemy piece |
| `Generation.KingNeverStepsToNextRow` | Chess/Chess/ChessEngine.py:282-283 | the king's offset table never takes the king one row down in its own column |
| `Generation.KingStepsBackTwice` | Chess/Chess/ChessEngine.py:282-286 | when the square one row up is empty, the king's move there is listed twice |
| `Generation.AllMovesGenerated` | Chess/Chess/ChessEngine.py:150-158 | every pseudo-legal move starts on a piece of the side to move, stays on the board and leaves its start; it lands on an empty or enemy square, or is a diagonal pawn step onto the en-passant target |
| `Generation.PawnMovesIgnoreEnPassant` | Chess/Chess/ChessEngine.py:172-193 | with no en-passant target, a pawn generates the same moves minus its en-passant captures |
| `Generation.AllMovesIgnoreEnPassant` | Chess/Chess/ChessEngine.py:150-158 | with no en-passant target, the board scan generates the same moves, in the same order, minus the en-passant captures |
| `Generation.AllMovesFrom` | Chess/Chess/ChessEngine.py:150-158 | every pseudo-legal move comes from the scan of one square of the board |
| `Generation.AllMovesComplete` | Chess/Chess/ChessEngine.py:150-158 | the scan misses no square: every move of the piece of the side to move on any square is pseudo-legal. With `AllMovesFrom`, the pseudo-legal moves are exactly the moves of the squares |
| `Generation.SquareMovesPiece` | Chess/Chess/ChessEngine.py:154-157 | a square yields moves only when it holds a piece of the side to move, and then yields that piece's moves |
| `Generation.DoubleStepShape` | Chess/Chess/ChessEngine.py:165-168 | every pawn move of two rows is the mover's pawn advancing from its home row, in its own column, over an empty square onto an empty square, and is no en passant |
| `Generation.InitialWhiteMovesStayBack` | Chess/Chess/ChessEngine.py:12-20 | in the starting position no move of White reaches beyond row 4, so none reaches the black king |
| `Generation.Attacked` | Chess/Chess/ChessEngine.py:136-143 | only a square on the board that holds none of the attacker's pieces (the en-passant target aside) can be attacked |
| `Generation.AttackedIgnoresEnPassant` | Chess/Chess/ChessEngine.py:136-143 | whether a square other than the en-passant target is attacked does not depend on that target |
| `Rules.Initial` | Chess/Chess/ChessEngine.py:7-29 | the starting position has an 8x8 board, White to move, an empty log and no en-passant target |
| `Rules.AfterMove` | Chess/Chess/ChessEngine.py:32-55 | a made move keeps the board 8x8; `Rules.MoveEffect` states its effect part by part |
| `Rules.MoveEffect` | Chess/Chess/ChessEngine.py:32-55 | making a move: empties the start square; puts the moved piece, or a queen of its colour on promotion, on the end square; removes the pawn an en-passant capture takes; changes no other square; appends the move to the log and passes the turn; moves only the moving king's cache; sets the en-passant target exactly after a pawn double step, to the skipped square |
| `Rules.MovePreservesPawnsInside` | Chess/Chess/ChessEngine.py:44-45 | a move with a correct promotion flag never leaves a pawn on its promotion row |
| `Rules.AfterMoveIgnoresEnPassant` | Chess/Chess/ChessEngine.py:32-55 | making a move does not read the en-passant target |
| `Rules.AfterUndo` | Chess/Chess/ChessEngine.py:72-91 | an undo keeps the board 8x8, and with an empty log changes nothing; `Rules.UndoEffect` states its effect part by part |
| `Rules.UndoEffect` | Chess/Chess/ChessEngine.py:72-91 | undoing a move: drops it from the log and passes the turn back; puts the captured piece back where it was taken and the moved piece back on its start; empties the end square of an en passant; changes no other square; moves the moving king's cache back; restores the target after an en passant and clears it after a double step |
| `Rules.UndoReversesMove` | Chess/Chess/ChessEngine.py:72-91 | undoing a move that fits its board gives back the board, turn, log and king caches exactly; the en-passant target comes back only as the undo rule sets it |
| `Rules.InitialSound` | Chess/Chess/ChessEngine.py:12-29 | the starting position is sound: no pawn on a promotion row, both king caches exact, no en-passant target, and White cannot capture the black king |
| `Rules.GeneratedReversible` | Chess/Chess/ChessEngine.py:298-312 | every pseudo-legal move of a scannable position (board shape, pawns off the promotion rows, exact king caches, consistent target) carries its board's pieces and can be undone exactly, and its promotion flag is set where a pawn reaches its far row |
| `Rules.GeneratedRoundTrip` | Chess/Chess/ChessEngine.py:102-110 | every pseudo-legal move of a scannable position can be made and undone, losing at most the en-passant target, and keeps pawns off the promotion rows |
| `Rules.AllMovesTestable` | Chess/Chess/ChessEngine.py:100-110 | every candidate of the legality scan of a scannable position can be tested by make, check and undo |
| `Rules.InCheck` | Chess/Chess/ChessEngine.py:127-131 | only a side whose cached king square is on the board can be in check |
| `Rules.KeepMembers` | Chess/Chess/ChessEngine.py:102-108 | the filter keeps exactly the candidates after which the mover's king is not attacked |
| `Rules.KeepAppend` | Chess/Chess/ChessEngine.py:102-108 | the filter works move by move, so the kept moves keep their original order |
| `Rules.LegalMoves` | Chess/Chess/ChessEngine.py:97-121 | the legal moves are pseudo-legal moves whose promotion flag is set where a pawn reaches its far row, and there are no more of them than pseudo-legal moves |
| `Rules.LegalMovesMembers` | Chess/Chess/ChessEngine.py:97-110 | a move is legal exactly when it is pseudo-legal and, once it is made, the mover's king (by its cache) is not attacked |
| `Rules.InCheckIgnoresStaleEnPassant` | Chess/Chess/ChessEngine.py:111-120 | in a scannable position, a cleared en-passant target does not change whether the side to move is in check |
| `Rules.MoveSparesKings` | Chess/Chess/ChessEngine.py:97-110 | in a sound position no pseudo-legal move ends on either king |
| `Rules.MoveKeepsKingCached` | Chess/Chess/ChessEngine.py:38-41 | a generated move that does not end on a king keeps that king's cache exact: a moving king's cache follows it to its end square, any other king stays, still the only one of its colour |
| `Rules.MoveKeepsEnPassantSound` | Chess/Chess/ChessEngine.py:51-55 | after a pseudo-legal move the en-passant target, if any, is the empty square a pawn just skipped, with that pawn right behind it |
| `Rules.LegalMoveKeepsSound` | Chess/Chess/ChessEngine.py:32-55 | a legal move made from a sound position gives a sound position: king caches exact, target consistent, pawns off the promotion rows, and the mover's king not capturable by the side now to move |
| `Rules.UndoKeepsSound` | Chess/Chess/ChessEngine.py:72-91 | undoing a pseudo-legal move just made from a sound position gives a sound position again |
| `Rules.MoveKeepsScannable` | Chess/Chess/ChessEngine.py:32-55 | a pseudo-legal move that does not end on a king keeps the position scannable: pawns off the promotion rows, king caches exact, target consistent |
| `Rules.ReplayedKingStepScannable` | Chess/Chess/ChessMain.py:65-70 | a king step made a second time, as the game loop does for a move listed twice, leaves the board as after the first make, logs the move twice, gives the turn back to the mover, and keeps the position scannable |
| `Rules.PromotionLeavesQueen` | Chess/Chess/ChessEngine.py:44-45 | a pawn moved to its far row is flagged as promoting and becomes a queen of its own colour |
| `Engine.GameState.constructor` | Chess/Chess/ChessEngine.py:7-29 | a new game is the starting position, which is sound, with both flags false |
| `Engine.GameState.MakeMove` | Chess/Chess/ChessEngine.py:32-55 | the object's new state is the made move's position (see `Rules.MoveEffect`); the flags are unchanged |
| `Engine.GameState.UndoMove` | Chess/Chess/ChessEngine.py:72-91 | the object's new state is the undone position (see `Rules.UndoEffect`, `Rules.UndoReversesMove`); the flags are unchanged |
| `Engine.GameState.GetValidMoves` | Chess/Chess/ChessEngine.py:97-121 | returns exactly the legal moves, in generation order, and leaves the state as it was; with moves left both flags are cleared; with none, checkmate is set when in check and stalemate otherwise |
| `Engine.GameState.RemoveIllegal` | Chess/Chess/ChessEngine.py:102-110 | the backward scan returns the filter of its candidates and leaves the state as it was, up to a cleared en-passant target |
| `Engine.GameState.ScanStep` | Chess/Chess/ChessEngine.py:103-110 | one scan step removes candidate i exactly when it leaves the king attacked, and keeps the scan invariant |
| `Engine.GameState.MakeTestUndo` | Chess/Chess/ChessEngine.py:103-110 | make, hand back the turn, test check, hand on the turn, undo: reports whether the move leaves the mover's king attacked and restores the state, up to a cleared en-passant target |
| `Engine.GameState.InCheck` | Chess/Chess/ChessEngine.py:127-131 | reports whether the cached king square of the side to move is attacked; the state is unchanged |
| `Engine.GameState.SquareUnderAttack` | Chess/Chess/ChessEngine.py:136-143 | reports whether some pseudo-legal move of the opponent ends on the square; the state is unchanged |
| `Engine.GameState.GetAllPossibleMoves` | Chess/Chess/ChessEngine.py:150-158 | returns all pseudo-legal moves of the side to move, in row-major board order |
| `Engine.GameState.CallMoveFunction` | Chess/Chess/ChessEngine.py:21-22 | the kind-to-generator table appends that piece's moves |
| `Engine.GameState.GetPawnMoves` | Chess/Chess/ChessEngine.py:163-193 | appends the advances, then the capture on White's left or Black's right, then the other capture |
| `Engine.GameState.GetRookMoves` | Chess/Chess/ChessEngine.py:197-214 | appends the rook's rays in the order up, left, down, right |
| `Engine.GameState.GetKnightMoves` | Chess/Chess/ChessEngine.py:219-226 | appends the knight's moves in the order of its offset table |
| `Engine.GameState.GetBishopMoves` | Chess/Chess/ChessEngine.py:234-251 | appends the bishop's four diagonal rays in table order |
| `Engine.GameState.GetQueenMoves` | Chess/Chess/ChessEngine.py:256-273 | appends the queen's eight rays in table order |
| `Engine.GameState.GetKingMoves` | Chess/Chess/ChessEngine.py:280-286 | appends the king's moves in the order of its offset table, including the duplicated entry |
| `Engine.MovePieces` | Chess/Chess/ChessEngine.py:33-49 | the board writes of a move produce the board of `Rules.MoveEffect` |
| `Engine.UnmovePieces` | Chess/Chess/ChessEngine.py:75-87 | the board writes of an undo produce the board of `Rules.UndoEffect` |
| `Engine.AddPawnAdvance` | Chess/Chess/ChessEngine.py:165-168 | appends the one- and two-square advances, as `Generation.PawnAdvanceFollowsRules` describes them |
| `Engine.AddPawnCapture` | Chess/Chess/ChessEngine.py:169-178 | appends the diagonal capture or en passant towards one side, as `Generation.PawnCaptureFollowsRules` describes it |
| `Engine.AddRayMoves` | Chess/Chess/ChessEngine.py:200-214 | appends the rays of every direction of the table, in order |
| `Engine.AddRay` | Chess/Chess/ChessEngine.py:201-214 | the step loop of one direction appends exactly the moves of `Generation.RayMembers` |
| `Engine.AddStepMoves` | Chess/Chess/ChessEngine.py:223-226 | the target loop appends exactly the moves of `Generation.StepsMembers` |

## Left out

- `Chess/Chess/ChessMain.py` is not part of this model. It holds the window, mouse input, drawing and the game loop, which calls the engine. Only what its move loop does to the game state, making every listed move equal to the clicked one, is stated, by `Rules.ReplayedKingStepScannable`.
- `undoMovee`, the unused alternative undo, is not modelled.
- Printing is not modelled. This covers the print of the king square in `undoMove`.
- `moves.remove(moves[i])` in the legality scan removes the first element equal to `moves[i]` under move equality. The model removes index `i`. The two differ only when equal moves are listed twice. The engine lists a move twice only through the king's duplicated table entry, and both copies then get the same verdict.
- The source sets `self.checkmate` / `self.stalemate` in the constructor but `self.checkMate` / `self.staleMate` in `getValidMoves`. The model has one pair of flags, initialised to false.
- Engine.GameState.GetValidMoves: requires the position to be scannable (`Rules.Scannable`): no pawn on a promotion row, king caches exact and the en-passant target consistent. The source places no such demand. The proof needs the other two conditions for make followed by undo to restore the position, and the king caches to show that the en-passant target, still cleared when the final check test runs, does not change its verdict; outside these the result is not claimed. It does not require that the side to move cannot already capture the opponent's king. The game loop in `Chess/Chess/ChessMain.py` (lines 65-70) makes every listed move equal to the clicked one, and the king's duplicated table entry lists one king step twice, so that step is made twice and the same side moves again. `Rules.ReplayedKingStepScannable` shows that such a position is still scannable, and `Rules.MoveKeepsScannable` that play keeps it so until a move captures a king. Every position reached by legal play is also sound (`Rules.InitialSound`, `Rules.LegalMoveKeepsSound`).
- Engine.GameState.GetAllPossibleMoves: requires no pawn on its promotion row (`Pieces.PawnsInside`). The pawn generator reads the row in front without a bounds check. In Python a black pawn on row 7 reads `board[8]`, an error, and a white pawn on row 0 reads `board[-1]`, which Python takes as row 7; neither case is modelled. `InCheck`, `SquareUnderAttack` and `GetPawnMoves` carry the same requirement.
- `Rules.Promoted` of an empty cell is empty. In the source, `pieceMoved[0] + 'Q'` on "--" would give "-Q", but no generated move moves an empty cell.
- The `isinstance` branch of `Move.__eq__` (comparison with a non-move) is not modelled. `Moves.Move.Equals` compares two moves.
- Generator methods return the extended list instead of appending to the caller's list in place. The board is a value (`seq<seq<Cell>>`) that the methods reassign. No list is shared between objects.
- Helper methods factor the source's loops and writes without changing their order: `AddRayMoves`, `AddRay`, `AddStepMoves`, `AddPawnAdvance`, `AddPawnCapture`, `MovePieces`, `UnmovePieces`, `RemoveIllegal`, `ScanStep`, `MakeTestUndo`. The two pawn captures of White and of Black are taken in the source's order.
- Engine.GameState.MakeMove: the method's own contract does not state that a legal move keeps a sound state sound. That follows from its ensures `State() == AfterMove(old(State()), move)` together with `Rules.LegalMoveKeepsSound`. Stating it inside the method puts the whole soundness invariant into the method's proof, which is then too large for the verifier's resource limit.
- Engine.GameState.UndoMove: soundness after an undo is proved only for undoing a move just made from a sound position (`Rules.UndoKeepsSound`). An undo further back in the log would need the earlier positions, which the state does not keep.
- The king's offset table lists (-1, 0) twice and lacks (1, 0). This is modelled as written, and `Generation.KingNeverStepsToNextRow` and `Generation.KingStepsBackTwice` state its consequences.
- `undoMove` restores the en-passant target after undoing an en-passant capture, clears it after undoing a two-square advance, and otherwise leaves the current target as it is. It does not bring back the target the undone position had; `Rules.UndoReversesMove` states exactly what comes back.
- Characters are Dafny `char`s; the source's string cells ("wp", "--") are the datatype `Cell`.
