/** What the queries and transitions of useChessEngine (src/utils/chessEngine.js)
    promise, stated over the functions of EngineState: which squares are attacked, which
    king square the check test reads, what a committed move changes and what it leaves
    alone, what a selection click does, and what loadFen installs. */
module EngineProperties {
  import opened Wrappers
  import opened ChessUtils
  import opened MoveGenerator
  import opened MoveProperties
  import opened FenUtils
  import opened FenProperties
  import opened EngineState

  // ================================================================ lookups

  /** isOpponent holds exactly when the selected square and the target both hold
      pieces and their colours differ. */
  lemma IsOpponentColors(s: GameState, row: int, col: int)
    ensures IsOpponent(s, row, col) <==>
            s.selectedSquare.Some? && s.selectedSquare.value in s.pieces &&
            GetPiece(s.pieces, row, col).Some? &&
            GetPiece(s.pieces, row, col).value.color != s.pieces[s.selectedSquare.value].color
  {
    if s.selectedSquare.Some? && s.selectedSquare.value in s.pieces && GetPiece(s.pieces, row, col).Some? {
      CodeColor(s.pieces[s.selectedSquare.value]);
      CodeColor(GetPiece(s.pieces, row, col).value);
    }
  }

  /** isFriendlyPiece holds exactly when the target holds a piece of the same colour. */
  lemma IsFriendlyColors(board: Board, piece: Piece, row: int, col: int)
    ensures IsFriendlyPiece(board, piece, row, col) <==>
            GetPiece(board, row, col).Some? && GetPiece(board, row, col).value.color == piece.color
  {
    CodeColor(piece);
    if GetPiece(board, row, col).Some? {
      CodeColor(GetPiece(board, row, col).value);
    }
  }

  // ================================================================ attacks

  /** A diagonal and an orthogonal unit step. */
  predicate IsDiagonalStep(d: Offset) {
    (d.0 == 1 || d.0 == -1) && (d.1 == 1 || d.1 == -1)
  }

  predicate IsStraightStep(d: Offset) {
    (d.0 == 0 && (d.1 == 1 || d.1 == -1)) || (d.1 == 0 && (d.0 == 1 || d.0 == -1))
  }

  lemma {:induction false} LeaperAttackSquares(offsets: seq<Offset>, board: Board, row: int, col: int, attacker: Piece)
    ensures LeaperAttack(offsets, board, row, col, attacker) <==>
            exists sq: Square :: (sq.row - row, sq.col - col) in offsets && AttackerAt(board, sq.row, sq.col, attacker)
  {
    if LeaperAttack(offsets, board, row, col, attacker) {
      var i :| 0 <= i < |offsets| && AttackerAt(board, row + offsets[i].0, col + offsets[i].1, attacker);
      var sq := Square(row + offsets[i].0, col + offsets[i].1);
      assert (sq.row - row, sq.col - col) == offsets[i];
    }
    if exists sq: Square :: (sq.row - row, sq.col - col) in offsets && AttackerAt(board, sq.row, sq.col, attacker) {
      var sq: Square :| (sq.row - row, sq.col - col) in offsets && AttackerAt(board, sq.row, sq.col, attacker);
      var i :| 0 <= i < |offsets| && offsets[i] == (sq.row - row, sq.col - col);
      assert AttackerAt(board, row + offsets[i].0, col + offsets[i].1, attacker);
    }
  }

  lemma PawnAttackSquares(board: Board, row: int, col: int, side: Color)
    ensures PawnAttack(PAWN_CAPTURE_OFFSETS, board, row, col, side) <==>
            exists sq: Square :: sq.row == row + PawnAttackDirection(side) && (sq.col == col - 1 || sq.col == col + 1) &&
                         AttackerAt(board, sq.row, sq.col, Piece(side, Pawn))
  {
    var dir := PawnAttackDirection(side);
    if PawnAttack(PAWN_CAPTURE_OFFSETS, board, row, col, side) {
      var i :| 0 <= i < 2 && AttackerAt(board, row + dir, col + PAWN_CAPTURE_OFFSETS[i], Piece(side, Pawn));
      var sq := Square(row + dir, col + PAWN_CAPTURE_OFFSETS[i]);
      assert sq.col == col - 1 || sq.col == col + 1;
    }
    if exists sq: Square :: sq.row == row + dir && (sq.col == col - 1 || sq.col == col + 1) &&
                    AttackerAt(board, sq.row, sq.col, Piece(side, Pawn)) {
      var sq: Square :| sq.row == row + dir && (sq.col == col - 1 || sq.col == col + 1) &&
                AttackerAt(board, sq.row, sq.col, Piece(side, Pawn));
      var i := if sq.col == col - 1 then 0 else 1;
      assert AttackerAt(board, row + dir, col + PAWN_CAPTURE_OFFSETS[i], Piece(side, Pawn));
    }
  }

  lemma {:induction false} SliderAttackDirections(dirs: seq<Offset>, board: Board, row: int, col: int,
                                                 attacker: Piece, queen: Piece)
    requires AllDirections(dirs)
    ensures SliderAttack(dirs, board, row, col, attacker, queen) <==>
            exists d: Offset :: d in dirs && IsDirection(d) && RayAttack(board, row, col, d, attacker, queen)
  {
    if exists d: Offset :: d in dirs && IsDirection(d) && RayAttack(board, row, col, d, attacker, queen) {
      var d: Offset :| d in dirs && IsDirection(d) && RayAttack(board, row, col, d, attacker, queen);
      var i :| 0 <= i < |dirs| && dirs[i] == d;
      assert RayAttack(board, row, col, dirs[i], attacker, queen);
    }
  }

  /** isSquareAttacked holds exactly when an attacking pawn stands one row towards
      PawnAttackDirection(side) in an adjacent column, an attacking knight a knight's
      leap away, the first piece along a diagonal is an attacking bishop or queen, the
      first piece along a rank or file is an attacking rook or queen, or an attacking
      king is adjacent. */
  lemma SquareAttackedIff(board: Board, row: int, col: int, side: Color)
    ensures SquareAttacked(board, row, col, side) <==>
            (exists sq: Square :: sq.row == row + PawnAttackDirection(side) && (sq.col == col - 1 || sq.col == col + 1) &&
                          AttackerAt(board, sq.row, sq.col, Piece(side, Pawn))) ||
            (exists sq: Square :: IsKnightLeap(sq.row - row, sq.col - col) && AttackerAt(board, sq.row, sq.col, Piece(side, Knight))) ||
            (exists d: Offset :: IsDiagonalStep(d) && IsDirection(d) &&
                         RayAttack(board, row, col, d, Piece(side, Bishop), Piece(side, Queen))) ||
            (exists d: Offset :: IsStraightStep(d) && IsDirection(d) &&
                         RayAttack(board, row, col, d, Piece(side, Rook), Piece(side, Queen))) ||
            (exists sq: Square :: IsKingStep(sq.row - row, sq.col - col) && AttackerAt(board, sq.row, sq.col, Piece(side, King)))
  {
    PawnAttackSquares(board, row, col, side);
    KnightAttackSquares(board, row, col, side);
    KingAttackSquares(board, row, col, side);
    DiagonalAttack(board, row, col, side);
    StraightAttack(board, row, col, side);
  }

  lemma KnightAttackSquares(board: Board, row: int, col: int, side: Color)
    ensures LeaperAttack(KNIGHT_OFFSETS, board, row, col, Piece(side, Knight)) <==>
            exists sq: Square :: IsKnightLeap(sq.row - row, sq.col - col) && AttackerAt(board, sq.row, sq.col, Piece(side, Knight))
  {
    LeaperAttackSquares(KNIGHT_OFFSETS, board, row, col, Piece(side, Knight));
    assert forall dr, dc :: (dr, dc) in KNIGHT_OFFSETS <==> IsKnightLeap(dr, dc);
  }

  lemma KingAttackSquares(board: Board, row: int, col: int, side: Color)
    ensures LeaperAttack(KING_DIRECTIONS, board, row, col, Piece(side, King)) <==>
            exists sq: Square :: IsKingStep(sq.row - row, sq.col - col) && AttackerAt(board, sq.row, sq.col, Piece(side, King))
  {
    LeaperAttackSquares(KING_DIRECTIONS, board, row, col, Piece(side, King));
    assert forall dr, dc :: (dr, dc) in KING_DIRECTIONS <==> IsKingStep(dr, dc);
  }

  lemma DiagonalAttack(board: Board, row: int, col: int, side: Color)
    ensures SliderAttack(BISHOP_DIRECTIONS, board, row, col, Piece(side, Bishop), Piece(side, Queen)) <==>
            exists d: Offset :: IsDiagonalStep(d) && IsDirection(d) &&
                                RayAttack(board, row, col, d, Piece(side, Bishop), Piece(side, Queen))
  {
    SliderAttackDirections(BISHOP_DIRECTIONS, board, row, col, Piece(side, Bishop), Piece(side, Queen));
    assert forall d: Offset :: d in BISHOP_DIRECTIONS <==> IsDiagonalStep(d);
  }

  lemma StraightAttack(board: Board, row: int, col: int, side: Color)
    ensures SliderAttack(ROOK_DIRECTIONS, board, row, col, Piece(side, Rook), Piece(side, Queen)) <==>
            exists d: Offset :: IsStraightStep(d) && IsDirection(d) &&
                                RayAttack(board, row, col, d, Piece(side, Rook), Piece(side, Queen))
  {
    SliderAttackDirections(ROOK_DIRECTIONS, board, row, col, Piece(side, Rook), Piece(side, Queen));
    assert forall d: Offset :: d in ROOK_DIRECTIONS <==> IsStraightStep(d);
  }

  // =============================================================== king scan

  lemma {:induction false} FirstKingColumnSpec(board: Board, row: int, col: int, king: Piece)
    ensures FirstKingColumn(board, row, col, king).None? <==>
            forall c :: col <= c <= 8 ==> GetPiece(board, row, c) != Some(king)
    ensures FirstKingColumn(board, row, col, king).Some? ==>
            forall c :: col <= c < FirstKingColumn(board, row, col, king).value ==> GetPiece(board, row, c) != Some(king)
    decreases 9 - col
  {
    if col <= 8 && GetPiece(board, row, col) != Some(king) {
      FirstKingColumnSpec(board, row, col + 1, king);
    }
  }

  /** Whether some square of board rows 1 to `rows` holds `king`. */
  ghost predicate KingOnRows(board: Board, rows: int, king: Piece) {
    exists sq: Square :: 1 <= sq.row <= rows && 1 <= sq.col <= 8 && GetPiece(board, sq.row, sq.col) == Some(king)
  }

  lemma {:induction false} KingScanSpec(board: Board, rows: int, king: Piece)
    requires rows <= 8
    ensures KingScan(board, rows, king).None? <==> !KingOnRows(board, rows, king)
    ensures KingScan(board, rows, king).Some? ==>
            var k := KingScan(board, rows, king).value;
            OnBoard(k) && k.row <= rows && GetPiece(board, k.row, k.col) == Some(king) &&
            forall sq: Square :: 1 <= sq.row <= rows && 1 <= sq.col <= 8 && GetPiece(board, sq.row, sq.col) == Some(king) ==>
                           sq.row < k.row || (sq.row == k.row && k.col <= sq.col)
    decreases rows
  {
    if rows >= 1 {
      FirstKingColumnSpec(board, rows, 1, king);
      KingScanSpec(board, rows - 1, king);
      if FirstKingColumn(board, rows, 1, king).None? {
        if KingOnRows(board, rows, king) {
          var sq: Square :| 1 <= sq.row <= rows && 1 <= sq.col <= 8 && GetPiece(board, sq.row, sq.col) == Some(king);
          assert sq.row < rows;
        }
      }
    }
  }

  /** isKingInCheck is false when no king of colour `c` is on the board. Otherwise it
      tests the square the scan keeps: it holds the king, and every other such king is
      on an earlier row, or on the same row further right (the inner `break` stops at
      the first column of a row, the outer loop goes on to later rows). */
  lemma KingInCheckCases(board: Board, c: Color)
    ensures !KingOnRows(board, 8, Piece(c, King)) ==> !KingInCheck(board, c)
    ensures KingOnRows(board, 8, Piece(c, King)) ==>
            KingSquare(board, Piece(c, King)).Some? &&
            var k := KingSquare(board, Piece(c, King)).value;
            OnBoard(k) && GetPiece(board, k.row, k.col) == Some(Piece(c, King)) &&
            (forall sq: Square :: OnBoard(sq) && GetPiece(board, sq.row, sq.col) == Some(Piece(c, King)) ==>
                            sq.row < k.row || (sq.row == k.row && k.col <= sq.col)) &&
            (KingInCheck(board, c) <==> SquareAttacked(board, k.row, k.col, Opponent(c)))
  {
    KingScanSpec(board, 8, Piece(c, King));
  }

  // ========================================================== possible moves

  /** A pawn moves one row in its direction, or two from its start row in its own column. */
  lemma PawnMoveRows(piece: Piece, row: int, col: int, isEmpty: (int, int) -> bool,
                     isOpponent: (int, int) -> bool, enPassantTarget: Option<Square>, sq: Square)
    requires sq in PawnMoves(piece, row, col, isEmpty, isOpponent, enPassantTarget)
    ensures sq.row == row + PawnDirection(piece) ||
            (sq == Square(row + 2 * PawnDirection(piece), col) && row == PawnStartRow(piece))
  {
    var dir := PawnDirection(piece);
    var pushes := PawnPushes(piece, row, col, isEmpty);
    PawnPushRules(piece, row, col, isEmpty);
    if sq in pushes {
      assert sq == pushes[0] || sq == pushes[1];
    } else if sq in PawnCaptures(PAWN_CAPTURE_OFFSETS, row + dir, col, isOpponent) {
      PawnCaptureRule(piece, row, col, isOpponent, sq);
    } else {
      EnPassantRule(piece, row, col, enPassantTarget.value, sq);
    }
  }

  /** Every possible move of the selected piece is a board square other than its own. */
  lemma PossibleMovesShape(s: GameState)
    requires ValidState(s)
    ensures forall sq: Square :: sq in PossibleMoves(s) ==> OnBoard(sq) && sq != s.selectedSquare.value
  {
    forall sq | sq in PossibleMoves(s) ensures OnBoard(sq) && sq != s.selectedSquare.value {
      PossibleMoveShape(s, sq);
    }
  }

  lemma PossibleMoveShape(s: GameState, sq: Square)
    requires ValidState(s) && sq in PossibleMoves(s)
    ensures OnBoard(sq) && sq != s.selectedSquare.value
  {
    var from := s.selectedSquare.value;
    var piece := s.pieces[from];
    var board := s.pieces;
    match piece.kind
    case Pawn =>
      PawnMovesOnBoard(piece, from.row, from.col, EmptyTest(board), OpponentTest(s), s.enPassantTarget);
    case Knight =>
      KnightMovesExactly(piece, from.row, from.col, FriendlyTest(board), sq);
    case Bishop =>
      SlidingMovesSafe(BISHOP_DIRECTIONS, piece, from.row, from.col, FriendlyTest(board), EmptyTest(board),
                       OpponentTest(s), sq);
    case Rook =>
      SlidingMovesSafe(ROOK_DIRECTIONS, piece, from.row, from.col, FriendlyTest(board), EmptyTest(board),
                       OpponentTest(s), sq);
    case Queen =>
      SlidingMovesSafe(QUEEN_DIRECTIONS, piece, from.row, from.col, FriendlyTest(board), EmptyTest(board),
                       OpponentTest(s), sq);
    case King =>
      KingMoveShape(piece, from.row, from.col, FriendlyTest(board), EmptyTest(board), PieceLookup(board),
                    AttackTest(board), s.pieceHasMoved, s.castlingRights, sq);
  }

  /** A king move is a board square other than the king's own, given that the
      emptiness callback reports the king's square as occupied. */
  lemma KingMoveShape(piece: Piece, row: int, col: int, isFriendlyPiece: (Piece, int, int) -> bool,
                      isEmpty: (int, int) -> bool, getPiece: (int, int) -> Option<Piece>,
                      isSquareAttacked: (int, int, Color) -> bool, pieceHasMoved: set<Square>,
                      castlingRights: CastlingRights, sq: Square)
    requires !isEmpty(row, col)
    requires sq in KingMoves(piece, row, col, isFriendlyPiece, isEmpty, getPiece, isSquareAttacked,
                             pieceHasMoved, castlingRights)
    ensures OnBoard(sq) && sq != Square(row, col)
  {
    KingMovesOnBoard(piece, row, col, isFriendlyPiece, isEmpty, getPiece, isSquareAttacked, pieceHasMoved, castlingRights);
    if sq in KingSteps(KING_DIRECTIONS, piece, row, col, isFriendlyPiece, isSquareAttacked, KingAttacker(piece)) {
      KingStepsExactly(piece, row, col, isFriendlyPiece, isSquareAttacked, sq);
    } else {
      CastlingRules(piece, row, col, isEmpty, getPiece, isSquareAttacked, pieceHasMoved, castlingRights);
    }
  }

  /** A possible pawn move of two rows is the double push from the start row, so the
      target it leaves lies on rank 3 (row 6) for white and rank 6 (row 3) for black. */
  lemma DoublePushTarget(s: GameState, to: Square)
    requires ValidState(s) && to in PossibleMoves(s)
    requires s.pieces[s.selectedSquare.value].kind == Pawn
    requires Abs(s.selectedSquare.value.row - to.row) == 2
    ensures var from := s.selectedSquare.value;
            var moving := s.pieces[from];
            to == Square(from.row + 2 * PawnDirection(moving), from.col) && from.row == PawnStartRow(moving) &&
            CommitTarget(from, to, moving) == Some(Square(from.row + PawnDirection(moving), from.col)) &&
            CommitTarget(from, to, moving).value.row == (if moving.color == White then 6 else 3)
  {
    var from := s.selectedSquare.value;
    var moving := s.pieces[from];
    PawnMoveRows(moving, from.row, from.col, EmptyTest(s.pieces), OpponentTest(s), s.enPassantTarget, to);
  }

  // ============================================================ square click

  /** After a committed move onto another square the destination holds the moving
      piece and the source is empty (a possible move never targets its own square,
      PossibleMoveShape); every other square is as before except the en-passant victim's square and
      the two squares of a castling rook hop. */
  lemma CommitPlacement(s: GameState, row: int, col: int)
    requires s.selectedSquare.Some? && s.selectedSquare.value in s.pieces
    ensures var t := Commit(s, row, col);
            var from, to := s.selectedSquare.value, Square(row, col);
            var moving := s.pieces[from];
            (from != to ==> GetPiece(t.pieces, row, col) == Some(moving) &&
                            GetPiece(t.pieces, from.row, from.col) == None) &&
            forall sq: Square ::
              (sq != from && sq != to &&
               !(IsEnPassantCapture(s, moving, to) && sq == EnPassantVictim(moving, to)) &&
               !(IsCastling(moving, from, to) && (sq == RookFrom(row, col > from.col) || sq == RookTo(row, col > from.col))))
              ==> GetPiece(t.pieces, sq.row, sq.col) == GetPiece(s.pieces, sq.row, sq.col)
  {
    var from := s.selectedSquare.value;
    CommitBoardPlacement(s, from, Square(row, col), s.pieces[from]);
  }

  lemma CommitBoardPlacement(s: GameState, from: Square, to: Square, moving: Piece)
    ensures var b := CommitBoard(s, from, to, moving);
            (from != to ==> to in b && b[to] == moving && from !in b) &&
            forall sq: Square ::
              (sq != from && sq != to &&
               !(IsEnPassantCapture(s, moving, to) && sq == EnPassantVictim(moving, to)) &&
               !(IsCastling(moving, from, to) && (sq == RookFrom(to.row, to.col > from.col) || sq == RookTo(to.row, to.col > from.col))))
              ==> (sq in b <==> sq in s.pieces) && (sq in b ==> b[sq] == s.pieces[sq])
  {
  }

  /** A pawn landing on the en-passant target removes the pawn behind the destination
      (row + 1 for white, row - 1 for black) and appends it to the captured lists. */
  lemma EnPassantCommit(s: GameState, row: int, col: int)
    requires s.selectedSquare.Some? && s.selectedSquare.value in s.pieces
    requires IsEnPassantCapture(s, s.pieces[s.selectedSquare.value], Square(row, col))
    requires GetPiece(s.pieces, row, col).None?
    ensures var t := Commit(s, row, col);
            var moving := s.pieces[s.selectedSquare.value];
            var victim := Square(row + (if moving.color == White then 1 else -1), col);
            GetPiece(t.pieces, victim.row, victim.col) == None &&
            (victim in s.pieces ==>
               (t.capturedByWhite, t.capturedByBlack) ==
               (if s.pieces[victim].color == White then (s.capturedByWhite + [s.pieces[victim]], s.capturedByBlack)
                else (s.capturedByWhite, s.capturedByBlack + [s.pieces[victim]]))) &&
            (victim !in s.pieces ==> t.capturedByWhite == s.capturedByWhite && t.capturedByBlack == s.capturedByBlack)
  {
    var from := s.selectedSquare.value;
    var moving := s.pieces[from];
    var victim := EnPassantVictim(moving, Square(row, col));
    CommitParts(s, row, col);
    EnPassantParts(s, from, Square(row, col), moving);
    if victim in s.pieces {
      AddCapturedColor((s.capturedByWhite, s.capturedByBlack), s.pieces[victim]);
    }
  }

  /** A captured piece joins the list of its own colour. */
  lemma AddCapturedColor(lists: (seq<Piece>, seq<Piece>), p: Piece)
    ensures AddCaptured(lists, p) == if p.color == White then (lists.0 + [p], lists.1) else (lists.0, lists.1 + [p])
  {
    CodeColor(p);
  }

  /** The board and the captured lists of a committed move. */
  lemma CommitParts(s: GameState, row: int, col: int)
    requires s.selectedSquare.Some? && s.selectedSquare.value in s.pieces
    ensures var t := Commit(s, row, col);
            var from := s.selectedSquare.value;
            t.pieces == CommitBoard(s, from, Square(row, col), s.pieces[from]) &&
            (t.capturedByWhite, t.capturedByBlack) == CommitCaptures(s, Square(row, col), s.pieces[from])
  {
  }

  lemma EnPassantParts(s: GameState, from: Square, to: Square, moving: Piece)
    requires IsEnPassantCapture(s, moving, to) && to !in s.pieces
    ensures var victim := EnPassantVictim(moving, to);
            victim !in CommitBoard(s, from, to, moving) &&
            CommitCaptures(s, to, moving) ==
              (if victim in s.pieces then AddCaptured((s.capturedByWhite, s.capturedByBlack), s.pieces[victim])
               else (s.capturedByWhite, s.capturedByBlack))
  {
  }

  /** A regular capture appends the piece on the destination to capturedByWhite when it
      is white and to capturedByBlack when it is black. */
  lemma RegularCaptureCommit(s: GameState, row: int, col: int)
    requires s.selectedSquare.Some? && s.selectedSquare.value in s.pieces
    requires Square(row, col) in s.pieces
    requires !IsEnPassantCapture(s, s.pieces[s.selectedSquare.value], Square(row, col))
    ensures var t := Commit(s, row, col);
            var captured := s.pieces[Square(row, col)];
            (t.capturedByWhite, t.capturedByBlack) ==
            (if captured.color == White then (s.capturedByWhite + [captured], s.capturedByBlack)
             else (s.capturedByWhite, s.capturedByBlack + [captured]))
  {
    CommitParts(s, row, col);
    AddCapturedColor((s.capturedByWhite, s.capturedByBlack), s.pieces[Square(row, col)]);
  }

  /** A king moving two columns moves whatever stands on the rook's corner of the
      destination row (column 8 going right, column 1 going left) to column 6 or 4 of
      that row, and empties the corner. */
  lemma CastlingCommit(s: GameState, row: int, col: int)
    requires s.selectedSquare.Some? && s.selectedSquare.value in s.pieces
    requires IsCastling(s.pieces[s.selectedSquare.value], s.selectedSquare.value, Square(row, col))
    ensures var t := Commit(s, row, col);
            var from := s.selectedSquare.value;
            var kingSide := col > from.col;
            var rookFrom, rookTo := Square(row, if kingSide then 8 else 1), Square(row, if kingSide then 6 else 4);
            (rookTo != from && rookTo != Square(row, col) ==>
               GetPiece(t.pieces, rookTo.row, rookTo.col) == GetPiece(s.pieces, rookFrom.row, rookFrom.col)) &&
            (rookFrom != Square(row, col) ==> GetPiece(t.pieces, rookFrom.row, rookFrom.col) == None)
  {
  }

  /** The ordinary kingside castle on row r: king from column 5 to 7, rook from 8 to 6. */
  lemma KingSideCastleCommit(s: GameState, r: int)
    requires s.selectedSquare == Some(Square(r, 5)) && Square(r, 5) in s.pieces
    requires s.pieces[Square(r, 5)].kind == King
    ensures var t := Commit(s, r, 7);
            GetPiece(t.pieces, r, 7) == Some(s.pieces[Square(r, 5)]) &&
            GetPiece(t.pieces, r, 6) == GetPiece(s.pieces, r, 8) &&
            GetPiece(t.pieces, r, 5) == None && GetPiece(t.pieces, r, 8) == None
  {
    CastlingCommit(s, r, 7);
  }

  /** The ordinary queenside castle on row r: king from column 5 to 3, rook from 1 to 4. */
  lemma QueenSideCastleCommit(s: GameState, r: int)
    requires s.selectedSquare == Some(Square(r, 5)) && Square(r, 5) in s.pieces
    requires s.pieces[Square(r, 5)].kind == King
    ensures var t := Commit(s, r, 3);
            GetPiece(t.pieces, r, 3) == Some(s.pieces[Square(r, 5)]) &&
            GetPiece(t.pieces, r, 4) == GetPiece(s.pieces, r, 1) &&
            GetPiece(t.pieces, r, 5) == None && GetPiece(t.pieces, r, 1) == None
  {
    CastlingCommit(s, r, 3);
  }

  /** After a committed move nothing is selected, the other side is to move, the
      fullmove number grows by one exactly when black moved, both squares are marked
      as moved and both check flags are recomputed on the new board. */
  lemma CommitBookkeeping(s: GameState, row: int, col: int)
    requires s.selectedSquare.Some? && s.selectedSquare.value in s.pieces
    ensures var t := Commit(s, row, col);
            t.selectedSquare == None &&
            t.currentPlayer != s.currentPlayer &&
            (t.fullmoveNumber == s.fullmoveNumber + 1 <==> s.currentPlayer == Black) &&
            (t.fullmoveNumber == s.fullmoveNumber <==> s.currentPlayer == White) &&
            t.pieceHasMoved == s.pieceHasMoved + {s.selectedSquare.value, Square(row, col)} &&
            t.inCheck.white == KingInCheck(t.pieces, White) &&
            t.inCheck.black == KingInCheck(t.pieces, Black)
  {
  }

  /** The target a move leaves is never its own destination, so the capture test that
      reads the recomputed target reduces to "the destination was occupied": the clock
      resets on a pawn move or onto an occupied square and otherwise counts up by one. */
  lemma CommitHalfmoveClock(s: GameState, row: int, col: int)
    requires s.selectedSquare.Some? && s.selectedSquare.value in s.pieces
    ensures CommitTarget(s.selectedSquare.value, Square(row, col), s.pieces[s.selectedSquare.value]) != Some(Square(row, col))
    ensures var t := Commit(s, row, col);
            var moving := s.pieces[s.selectedSquare.value];
            t.halfmoveClock == if moving.kind == Pawn || Square(row, col) in s.pieces then 0 else s.halfmoveClock + 1
  {
  }

  /** The en-passant target after a move: none unless a pawn moved two rows, and then
      the square it passed over in its own column. */
  lemma CommitEnPassantTarget(s: GameState, row: int, col: int)
    requires s.selectedSquare.Some? && s.selectedSquare.value in s.pieces
    ensures var t := Commit(s, row, col);
            var from := s.selectedSquare.value;
            var moving := s.pieces[from];
            (t.enPassantTarget.Some? <==> moving.kind == Pawn && Abs(from.row - row) == 2) &&
            (t.enPassantTarget.Some? ==>
               t.enPassantTarget.value.col == from.col &&
               t.enPassantTarget.value.row == from.row + PawnDirection(moving))
  {
  }

  /** Castling rights only go from true to false. A king clears both rights of its
      colour; a rook leaving a1, h1, a8 or h8 clears the matching right; nothing else
      changes a right. */
  lemma CommitRightsRules(rights: CastlingRights, from: Square, moving: Piece)
    ensures var r := CommitRights(rights, from, moving);
            (r.white.kingSide ==> rights.white.kingSide) && (r.white.queenSide ==> rights.white.queenSide) &&
            (r.black.kingSide ==> rights.black.kingSide) && (r.black.queenSide ==> rights.black.queenSide) &&
            (moving.kind == King ==> RightsOf(r, moving.color) == Rights(false, false) &&
                                     RightsOf(r, Opponent(moving.color)) == RightsOf(rights, Opponent(moving.color))) &&
            (moving.kind == Rook ==>
               var home := if moving.color == White then 8 else 1;
               RightsOf(r, moving.color) ==
                 Rights(RightsOf(rights, moving.color).kingSide && from != Square(home, 8),
                        RightsOf(rights, moving.color).queenSide && from != Square(home, 1)) &&
               RightsOf(r, Opponent(moving.color)) == RightsOf(rights, Opponent(moving.color))) &&
            (moving.kind != King && moving.kind != Rook ==> r == rights)
  {
  }

  /** A click that is not a possible destination of the selection: on a piece of the
      side not to move nothing changes; on an own piece the selection toggles; on an
      empty square the selection clears. Only the selection ever changes. */
  lemma ClickSelects(s: GameState, row: int, col: int)
    requires !(s.selectedSquare.Some? && Square(row, col) in PossibleMoves(s))
    ensures var t := Click(s, row, col);
            t == s.(selectedSquare := t.selectedSquare) &&
            (Square(row, col) in s.pieces && s.pieces[Square(row, col)].color != s.currentPlayer ==> t == s) &&
            (Square(row, col) in s.pieces && s.pieces[Square(row, col)].color == s.currentPlayer ==>
               t.selectedSquare == (if s.selectedSquare == Some(Square(row, col)) then None else Some(Square(row, col)))) &&
            (Square(row, col) !in s.pieces ==> t.selectedSquare == None)
  {
    if Square(row, col) in s.pieces {
      CodeColor(s.pieces[Square(row, col)]);
    }
  }

  /** A click on a possible destination commits the move. */
  lemma ClickCommits(s: GameState, row: int, col: int)
    requires s.selectedSquare.Some? && Square(row, col) in PossibleMoves(s)
    ensures s.selectedSquare.value in s.pieces
    ensures Click(s, row, col) == Commit(s, row, col)
  {
    PossibleMovesSelected(s);
  }

  /** Every click keeps the state valid: pieces, selection and target on the board, the
      target on rank 3 or 6, the clocks in range. */
  lemma ClickValid(s: GameState, row: int, col: int)
    requires ValidState(s)
    ensures ValidState(Click(s, row, col))
  {
    if s.selectedSquare.Some? && Square(row, col) in PossibleMoves(s) {
      PossibleMovesSelected(s);
      CommitValid(s, row, col);
    }
  }

  lemma CommitValid(s: GameState, row: int, col: int)
    requires ValidState(s) && s.selectedSquare.Some? && Square(row, col) in PossibleMoves(s)
    requires s.selectedSquare.value in s.pieces
    ensures ValidState(Commit(s, row, col))
  {
    var from, to := s.selectedSquare.value, Square(row, col);
    var moving := s.pieces[from];
    PossibleMoveShape(s, to);
    CommitBoardOnBoard(s, from, to, moving);
    if moving.kind == Pawn && Abs(from.row - row) == 2 {
      DoublePushTarget(s, to);
    }
  }

  lemma CommitBoardOnBoard(s: GameState, from: Square, to: Square, moving: Piece)
    requires forall sq: Square :: sq in s.pieces ==> OnBoard(sq)
    requires OnBoard(to)
    ensures forall sq: Square :: sq in CommitBoard(s, from, to, moving) ==> OnBoard(sq)
  {
  }

  // ===================================================================== FEN

  /** loadFen of a FEN parseFen rejects returns false and leaves the state as it was. */
  lemma LoadFenRejects(s: GameState, fen: string)
    requires Parse(fen).Err?
    ensures LoadFen(s, fen) == (s, false)
  {
  }

  /** loadFen of a FEN parseFen accepts returns true and installs the parsed position,
      with no selection, empty captured lists, and pieceHasMoved holding e1 when either
      white right is missing, h1 and a1 when the matching white right is missing, and
      likewise e8, h8 and a8 for black. */
  lemma LoadFenInstalls(s: GameState, fen: string)
    requires Parse(fen).Ok?
    ensures var (t, ok) := LoadFen(s, fen);
            var p := Parse(fen).value;
            var r := p.castlingRights;
            ok && t.pieces == p.pieces && t.currentPlayer == p.currentPlayer &&
            t.castlingRights == r && t.enPassantTarget == p.enPassantTarget &&
            t.halfmoveClock == p.halfmoveClock && t.fullmoveNumber == p.fullmoveNumber &&
            t.selectedSquare == None && t.capturedByWhite == [] && t.capturedByBlack == [] &&
            (Square(8, 5) in t.pieceHasMoved <==> !r.white.kingSide || !r.white.queenSide) &&
            (Square(8, 8) in t.pieceHasMoved <==> !r.white.kingSide) &&
            (Square(8, 1) in t.pieceHasMoved <==> !r.white.queenSide) &&
            (Square(1, 5) in t.pieceHasMoved <==> !r.black.kingSide || !r.black.queenSide) &&
            (Square(1, 8) in t.pieceHasMoved <==> !r.black.kingSide) &&
            (Square(1, 1) in t.pieceHasMoved <==> !r.black.queenSide) &&
            t.pieceHasMoved <= {Square(8, 5), Square(8, 8), Square(8, 1), Square(1, 5), Square(1, 8), Square(1, 1)} &&
            t.inCheck == InCheck(KingInCheck(p.pieces, White), KingInCheck(p.pieces, Black))
  {
    MovedFromRightsMembers(Parse(fen).value.castlingRights);
  }

  lemma MovedFromRightsMembers(r: CastlingRights)
    ensures var m := MovedFromRights(r);
            (Square(8, 5) in m <==> !r.white.kingSide || !r.white.queenSide) &&
            (Square(8, 8) in m <==> !r.white.kingSide) &&
            (Square(8, 1) in m <==> !r.white.queenSide) &&
            (Square(1, 5) in m <==> !r.black.kingSide || !r.black.queenSide) &&
            (Square(1, 8) in m <==> !r.black.kingSide) &&
            (Square(1, 1) in m <==> !r.black.queenSide) &&
            m <= {Square(8, 5), Square(8, 8), Square(8, 1), Square(1, 5), Square(1, 8), Square(1, 1)}
  {
  }

  /** Every load keeps the state valid. */
  lemma LoadFenValid(s: GameState, fen: string)
    requires ValidState(s)
    ensures ValidState(LoadFen(s, fen).0)
  {
    if Parse(fen).Ok? {
      ParseWellFormed(fen);
    }
  }

  /** Loading the FEN getCurrentFen writes gives back the whole position: pieces, side
      to move, rights, target and both clocks, while the clocks are safe integers. */
  lemma ReloadCurrentFen(s: GameState)
    requires ValidState(s) && SafeClocks(CurrentPosition(s))
    ensures var (t, ok) := LoadFen(s, Generate(CurrentPosition(s)));
            ok && t.pieces == s.pieces && t.currentPlayer == s.currentPlayer &&
            t.castlingRights == s.castlingRights && t.enPassantTarget == s.enPassantTarget &&
            t.halfmoveClock == s.halfmoveClock && t.fullmoveNumber == s.fullmoveNumber
  {
    ParseGenerate(CurrentPosition(s));
  }

  /** resetGame installs initialPieces with white to move, every right, no target, the
      clocks at 0 and 1, and no square marked as moved. */
  lemma ResetGameState(s: GameState)
    ensures var (t, ok) := LoadFen(s, STARTING_FEN);
            ok && t.pieces == InitialPieces && t.currentPlayer == White && t.castlingRights == ALL_RIGHTS &&
            t.enPassantTarget == None && t.halfmoveClock == 0 && t.fullmoveNumber == 1 &&
            t.pieceHasMoved == {} && t.selectedSquare == None
  {
    ParseStartingFen();
  }
}
