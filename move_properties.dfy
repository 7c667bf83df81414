/** What the move generators of src/utils/moveGenerator.js promise: which squares each
    one offers and under which conditions, stated over the specification functions that
    the generator methods are proved equal to. */
module MoveProperties {
  import opened Wrappers
  import opened ChessUtils
  import opened MoveGenerator

  // ================================================================== pawn

  /** A single push is offered exactly when the square ahead is on the board and empty;
      a double push is offered only with it, only from the start row, and only when both
      squares ahead are empty. */
  lemma PawnPushRules(piece: Piece, row: int, col: int, isEmpty: (int, int) -> bool)
    ensures var pushes := PawnPushes(piece, row, col, isEmpty);
            var dir := PawnDirection(piece);
            |pushes| <= 2 &&
            (pushes != [] <==> IsWithinBoard(row + dir, col) && isEmpty(row + dir, col)) &&
            (pushes != [] ==> pushes[0] == Square(row + dir, col)) &&
            (|pushes| == 2 <==>
               IsWithinBoard(row + dir, col) && isEmpty(row + dir, col) &&
               row == PawnStartRow(piece) && isEmpty(row + 2 * dir, col)) &&
            (|pushes| == 2 ==> pushes[1] == Square(row + 2 * dir, col))
  {
  }

  /** The diagonal captures are exactly the on-board squares one row ahead in an adjacent
      column where isOpponent holds. */
  lemma {:induction false} PawnCapturesMembers(offsets: seq<int>, forwardRow: int, col: int,
                                              isOpponent: (int, int) -> bool, sq: Square)
    ensures sq in PawnCaptures(offsets, forwardRow, col, isOpponent) <==>
            sq.row == forwardRow && sq.col - col in offsets && OnBoard(sq) && isOpponent(sq.row, sq.col)
    decreases |offsets|
  {
    if offsets != [] {
      var last := offsets[|offsets| - 1];
      var prefix := offsets[..|offsets| - 1];
      assert offsets == prefix + [last];
      PawnCapturesMembers(prefix, forwardRow, col, isOpponent, sq);
    }
  }

  lemma PawnCaptureRule(piece: Piece, row: int, col: int, isOpponent: (int, int) -> bool, sq: Square)
    ensures sq in PawnCaptures(PAWN_CAPTURE_OFFSETS, row + PawnDirection(piece), col, isOpponent) <==>
            sq.row == row + PawnDirection(piece) && (sq.col == col - 1 || sq.col == col + 1) &&
            OnBoard(sq) && isOpponent(sq.row, sq.col)
  {
    PawnCapturesMembers(PAWN_CAPTURE_OFFSETS, row + PawnDirection(piece), col, isOpponent, sq);
  }

  /** The en-passant target is offered only when the pawn stands on the row behind it
      (row `target.row - direction`) in an adjacent column, and then it is offered. */
  lemma {:induction false} EnPassantMembers(offsets: seq<int>, row: int, col: int, direction: int,
                                           target: Square, sq: Square)
    ensures sq in PawnEnPassant(offsets, row, col, direction, target) <==>
            sq == target && row == target.row - direction && target.col - col in offsets
    decreases |offsets|
  {
    if offsets != [] {
      var last := offsets[|offsets| - 1];
      var prefix := offsets[..|offsets| - 1];
      assert offsets == prefix + [last];
      EnPassantMembers(prefix, row, col, direction, target, sq);
    }
  }

  lemma EnPassantRule(piece: Piece, row: int, col: int, target: Square, sq: Square)
    ensures sq in PawnEnPassant(PAWN_CAPTURE_OFFSETS, row, col, PawnDirection(piece), target) <==>
            sq == target && row == target.row - PawnDirection(piece) &&
            (target.col == col - 1 || target.col == col + 1)
  {
    EnPassantMembers(PAWN_CAPTURE_OFFSETS, row, col, PawnDirection(piece), target, sq);
  }

  /** Every pawn move lies on the board when the en-passant target does, and a pawn
      never stays on its own square: each move changes the row by the pawn's direction
      (twice that for a double push). */
  lemma PawnMovesOnBoard(piece: Piece, row: int, col: int, isEmpty: (int, int) -> bool,
                         isOpponent: (int, int) -> bool, enPassantTarget: Option<Square>)
    requires enPassantTarget.Some? ==> OnBoard(enPassantTarget.value)
    ensures forall sq :: sq in PawnMoves(piece, row, col, isEmpty, isOpponent, enPassantTarget) ==>
              OnBoard(sq) && (sq.row == row + PawnDirection(piece) || sq.row == row + 2 * PawnDirection(piece))
  {
    var dir := PawnDirection(piece);
    PawnPushRules(piece, row, col, isEmpty);
    forall sq | sq in PawnMoves(piece, row, col, isEmpty, isOpponent, enPassantTarget)
      ensures OnBoard(sq) && (sq.row == row + dir || sq.row == row + 2 * dir)
    {
      var pushes := PawnPushes(piece, row, col, isEmpty);
      if sq in pushes {
        assert sq == pushes[0] || sq == pushes[1];
      } else if sq in PawnCaptures(PAWN_CAPTURE_OFFSETS, row + dir, col, isOpponent) {
        PawnCaptureRule(piece, row, col, isOpponent, sq);
      } else {
        EnPassantRule(piece, row, col, enPassantTarget.value, sq);
      }
    }
  }

  // ================================================================ knight

  predicate IsKnightLeap(dr: int, dc: int) {
    ((dr == 1 || dr == -1) && (dc == 2 || dc == -2)) || ((dr == 2 || dr == -2) && (dc == 1 || dc == -1))
  }

  lemma {:induction false} KnightTargetsMembers(offsets: seq<Offset>, piece: Piece, row: int, col: int,
                                               isFriendlyPiece: (Piece, int, int) -> bool, sq: Square)
    ensures sq in KnightTargets(offsets, piece, row, col, isFriendlyPiece) <==>
            (sq.row - row, sq.col - col) in offsets && OnBoard(sq) && !isFriendlyPiece(piece, sq.row, sq.col)
    ensures |KnightTargets(offsets, piece, row, col, isFriendlyPiece)| <= |offsets|
    decreases |offsets|
  {
    if offsets != [] {
      var prefix := offsets[..|offsets| - 1];
      assert offsets == prefix + [offsets[|offsets| - 1]];
      KnightTargetsMembers(prefix, piece, row, col, isFriendlyPiece, sq);
    }
  }

  /** getKnightMoves returns exactly the on-board knight leaps that hold no friendly
      piece, so at most eight squares. */
  lemma KnightMovesExactly(piece: Piece, row: int, col: int, isFriendlyPiece: (Piece, int, int) -> bool, sq: Square)
    ensures sq in KnightMoves(piece, row, col, isFriendlyPiece) <==>
            IsKnightLeap(sq.row - row, sq.col - col) && OnBoard(sq) && !isFriendlyPiece(piece, sq.row, sq.col)
    ensures |KnightMoves(piece, row, col, isFriendlyPiece)| <= 8
  {
    KnightTargetsMembers(KNIGHT_OFFSETS, piece, row, col, isFriendlyPiece, sq);
    assert (sq.row - row, sq.col - col) in KNIGHT_OFFSETS <==> IsKnightLeap(sq.row - row, sq.col - col);
  }

  // ========================================================= bishop, rook, queen

  /** The square one step further along (dr, dc). */
  function Next(sq: Square, dr: int, dc: int): Square {
    Square(sq.row + dr, sq.col + dc)
  }

  /** Whether `sq` lies on the half-line from (row, col) in direction (dr, dc), coordinate by coordinate. */
  predicate Ahead(sq: Square, row: int, col: int, dr: int, dc: int) {
    (if dr > 0 then sq.row >= row else if dr < 0 then sq.row <= row else sq.row == row) &&
    (if dc > 0 then sq.col >= col else if dc < 0 then sq.col <= col else sq.col == col)
  }

  /** A ray is a run of consecutive squares that starts at its first target and moves
      away from the piece along its direction. */
  lemma {:induction false} RayPath(piece: Piece, row: int, col: int, dr: int, dc: int,
                                   isFriendlyPiece: (Piece, int, int) -> bool, isEmpty: (int, int) -> bool,
                                   isOpponent: (int, int) -> bool)
    requires IsDirection((dr, dc))
    ensures var r := Ray(piece, row, col, dr, dc, isFriendlyPiece, isEmpty, isOpponent);
            (r != [] ==> r[0] == Square(row, col)) &&
            (forall k :: 0 <= k < |r| - 1 ==> r[k + 1] == Next(r[k], dr, dc)) &&
            (forall k :: 0 <= k < |r| ==> Ahead(r[k], row, col, dr, dc))
    decreases EdgeDistance(row, col, dr, dc)
  {
    var r := Ray(piece, row, col, dr, dc, isFriendlyPiece, isEmpty, isOpponent);
    if IsWithinBoard(row, col) && !isFriendlyPiece(piece, row, col) &&
       !isOpponent(row, col) && isEmpty(row, col) {
      var rest := Ray(piece, row + dr, col + dc, dr, dc, isFriendlyPiece, isEmpty, isOpponent);
      RayPath(piece, row + dr, col + dc, dr, dc, isFriendlyPiece, isEmpty, isOpponent);
      assert r == [Square(row, col)] + rest;
      forall k | 0 <= k < |r| - 1 ensures r[k + 1] == Next(r[k], dr, dc) {
        if k > 0 { assert r[k] == rest[k - 1] && r[k + 1] == rest[k]; }
      }
      forall k | 0 <= k < |r| ensures Ahead(r[k], row, col, dr, dc) {
        if k > 0 { assert r[k] == rest[k - 1]; }
      }
    }
  }

  predicate RaySquaresSafe(r: seq<Square>, piece: Piece, isFriendlyPiece: (Piece, int, int) -> bool) {
    forall k :: 0 <= k < |r| ==> OnBoard(r[k]) && !isFriendlyPiece(piece, r[k].row, r[k].col)
  }

  predicate RayOpenBeforeLast(r: seq<Square>, isEmpty: (int, int) -> bool, isOpponent: (int, int) -> bool) {
    forall k :: 0 <= k < |r| - 1 ==> isEmpty(r[k].row, r[k].col) && !isOpponent(r[k].row, r[k].col)
  }

  /** Every square of a ray is on the board and holds no friendly piece; every square but
      the last is empty and not an opponent piece, so nothing beyond the first occupied
      square is offered. */
  lemma {:induction false} RayContents(piece: Piece, row: int, col: int, dr: int, dc: int,
                                       isFriendlyPiece: (Piece, int, int) -> bool, isEmpty: (int, int) -> bool,
                                       isOpponent: (int, int) -> bool)
    requires IsDirection((dr, dc))
    ensures RaySquaresSafe(Ray(piece, row, col, dr, dc, isFriendlyPiece, isEmpty, isOpponent), piece, isFriendlyPiece)
    ensures RayOpenBeforeLast(Ray(piece, row, col, dr, dc, isFriendlyPiece, isEmpty, isOpponent), isEmpty, isOpponent)
    decreases EdgeDistance(row, col, dr, dc)
  {
    var r := Ray(piece, row, col, dr, dc, isFriendlyPiece, isEmpty, isOpponent);
    if IsWithinBoard(row, col) && !isFriendlyPiece(piece, row, col) &&
       !isOpponent(row, col) && isEmpty(row, col) {
      var rest := Ray(piece, row + dr, col + dc, dr, dc, isFriendlyPiece, isEmpty, isOpponent);
      RayContents(piece, row + dr, col + dc, dr, dc, isFriendlyPiece, isEmpty, isOpponent);
      assert r == [Square(row, col)] + rest;
    }
  }

  /** A ray ends because the square after it is off the board or friendly, or because its
      last square is occupied; it is empty only when its first target is off the board
      or friendly. */
  lemma {:induction false} RayEnd(piece: Piece, row: int, col: int, dr: int, dc: int,
                                  isFriendlyPiece: (Piece, int, int) -> bool, isEmpty: (int, int) -> bool,
                                  isOpponent: (int, int) -> bool)
    requires IsDirection((dr, dc))
    ensures var r := Ray(piece, row, col, dr, dc, isFriendlyPiece, isEmpty, isOpponent);
            (r == [] ==> !IsWithinBoard(row, col) || isFriendlyPiece(piece, row, col)) &&
            (r != [] ==>
               var last := r[|r| - 1];
               isOpponent(last.row, last.col) || !isEmpty(last.row, last.col) ||
               !OnBoard(Next(last, dr, dc)) || isFriendlyPiece(piece, last.row + dr, last.col + dc))
    decreases EdgeDistance(row, col, dr, dc)
  {
    var r := Ray(piece, row, col, dr, dc, isFriendlyPiece, isEmpty, isOpponent);
    if IsWithinBoard(row, col) && !isFriendlyPiece(piece, row, col) &&
       !isOpponent(row, col) && isEmpty(row, col) {
      var rest := Ray(piece, row + dr, col + dc, dr, dc, isFriendlyPiece, isEmpty, isOpponent);
      RayEnd(piece, row + dr, col + dc, dr, dc, isFriendlyPiece, isEmpty, isOpponent);
      assert r == [Square(row, col)] + rest;
      if rest != [] {
        assert r[|r| - 1] == rest[|rest| - 1];
      }
    }
  }

  /** A ray never returns to the square the piece stands on. */
  lemma RayAvoidsOrigin(piece: Piece, row: int, col: int, dr: int, dc: int,
                        isFriendlyPiece: (Piece, int, int) -> bool, isEmpty: (int, int) -> bool,
                        isOpponent: (int, int) -> bool)
    requires IsDirection((dr, dc))
    ensures Square(row, col) !in Ray(piece, row + dr, col + dc, dr, dc, isFriendlyPiece, isEmpty, isOpponent)
  {
    RayPath(piece, row + dr, col + dc, dr, dc, isFriendlyPiece, isEmpty, isOpponent);
  }

  /** Whether the ray from (row, col) in direction `d` reaches `sq`. */
  predicate OnRay(sq: Square, d: Offset, piece: Piece, row: int, col: int,
                  isFriendlyPiece: (Piece, int, int) -> bool, isEmpty: (int, int) -> bool,
                  isOpponent: (int, int) -> bool)
    requires IsDirection(d)
  {
    sq in Ray(piece, row + d.0, col + d.1, d.0, d.1, isFriendlyPiece, isEmpty, isOpponent)
  }

  /** Every move of a sliding piece (the squares of its rays, in order) is on the
      board, holds no friendly piece and is not the piece's own square. */
  lemma {:induction false} SlidingMovesSafe(dirs: seq<Offset>, piece: Piece, row: int, col: int,
                                           isFriendlyPiece: (Piece, int, int) -> bool, isEmpty: (int, int) -> bool,
                                           isOpponent: (int, int) -> bool, sq: Square)
    requires AllDirections(dirs)
    requires sq in SlidingMoves(dirs, piece, row, col, isFriendlyPiece, isEmpty, isOpponent)
    ensures OnBoard(sq) && !isFriendlyPiece(piece, sq.row, sq.col) && sq != Square(row, col)
    decreases |dirs|
  {
    var n := |dirs| - 1;
    if sq in SlidingMoves(dirs[..n], piece, row, col, isFriendlyPiece, isEmpty, isOpponent) {
      SlidingMovesSafe(dirs[..n], piece, row, col, isFriendlyPiece, isEmpty, isOpponent, sq);
    } else {
      RaySquareSafe(dirs[n], piece, row, col, isFriendlyPiece, isEmpty, isOpponent, sq);
    }
  }

  lemma RaySquareSafe(d: Offset, piece: Piece, row: int, col: int,
                      isFriendlyPiece: (Piece, int, int) -> bool, isEmpty: (int, int) -> bool,
                      isOpponent: (int, int) -> bool, sq: Square)
    requires IsDirection(d)
    requires OnRay(sq, d, piece, row, col, isFriendlyPiece, isEmpty, isOpponent)
    ensures OnBoard(sq) && !isFriendlyPiece(piece, sq.row, sq.col) && sq != Square(row, col)
  {
    var ray := Ray(piece, row + d.0, col + d.1, d.0, d.1, isFriendlyPiece, isEmpty, isOpponent);
    RayContents(piece, row + d.0, col + d.1, d.0, d.1, isFriendlyPiece, isEmpty, isOpponent);
    RayAvoidsOrigin(piece, row, col, d.0, d.1, isFriendlyPiece, isEmpty, isOpponent);
    var j :| 0 <= j < |ray| && ray[j] == sq;
  }

  /** The squares a queen reaches are exactly those a bishop or a rook on its square reaches. */
  lemma QueenMovesMembers(piece: Piece, row: int, col: int, isFriendlyPiece: (Piece, int, int) -> bool,
                          isEmpty: (int, int) -> bool, isOpponent: (int, int) -> bool, sq: Square)
    ensures sq in QueenMoves(piece, row, col, isFriendlyPiece, isEmpty, isOpponent) <==>
            sq in BishopMoves(piece, row, col, isFriendlyPiece, isEmpty, isOpponent) ||
            sq in RookMoves(piece, row, col, isFriendlyPiece, isEmpty, isOpponent)
  {
    QueenIsBishopThenRook(piece, row, col, isFriendlyPiece, isEmpty, isOpponent);
  }

  // ================================================================== king

  predicate IsKingStep(dr: int, dc: int) {
    -1 <= dr <= 1 && -1 <= dc <= 1 && (dr, dc) != (0, 0)
  }

  lemma {:induction false} KingStepsMembers(offsets: seq<Offset>, piece: Piece, row: int, col: int,
                                           isFriendlyPiece: (Piece, int, int) -> bool,
                                           isSquareAttacked: (int, int, Color) -> bool, attacker: Color, sq: Square)
    ensures sq in KingSteps(offsets, piece, row, col, isFriendlyPiece, isSquareAttacked, attacker) <==>
            (sq.row - row, sq.col - col) in offsets && OnBoard(sq) &&
            !isFriendlyPiece(piece, sq.row, sq.col) && !isSquareAttacked(sq.row, sq.col, attacker)
    decreases |offsets|
  {
    if offsets != [] {
      var prefix := offsets[..|offsets| - 1];
      assert offsets == prefix + [offsets[|offsets| - 1]];
      KingStepsMembers(prefix, piece, row, col, isFriendlyPiece, isSquareAttacked, attacker, sq);
    }
  }

  /** The king's steps are exactly the adjacent on-board squares that hold no friendly
      piece and that the opponent does not attack (tested by the given callback, on
      whatever board it closes over). */
  lemma KingStepsExactly(piece: Piece, row: int, col: int, isFriendlyPiece: (Piece, int, int) -> bool,
                         isSquareAttacked: (int, int, Color) -> bool, sq: Square)
    ensures sq in KingSteps(KING_DIRECTIONS, piece, row, col, isFriendlyPiece, isSquareAttacked, KingAttacker(piece)) <==>
            IsKingStep(sq.row - row, sq.col - col) && OnBoard(sq) &&
            !isFriendlyPiece(piece, sq.row, sq.col) && !isSquareAttacked(sq.row, sq.col, KingAttacker(piece))
  {
    KingStepsMembers(KING_DIRECTIONS, piece, row, col, isFriendlyPiece, isSquareAttacked, KingAttacker(piece), sq);
    assert (sq.row - row, sq.col - col) in KING_DIRECTIONS <==> IsKingStep(sq.row - row, sq.col - col);
  }

  /** Castling offers at most the squares on columns 7 and 3 of the fixed castling row.
      Column 7 is offered exactly when the kingside right is held, the king's square and
      the h-file rook square are unmoved, the king is not attacked, columns 6 and 7 are
      empty and not attacked and an own rook stands on column 8; column 3 likewise with
      the queenside right, columns 2-4 empty, columns 3 and 4 not attacked and an own
      rook on column 1. */
  lemma CastlingRules(piece: Piece, row: int, col: int, isEmpty: (int, int) -> bool,
                      getPiece: (int, int) -> Option<Piece>, isSquareAttacked: (int, int, Color) -> bool,
                      pieceHasMoved: set<Square>, castlingRights: CastlingRights)
    ensures var moves := CastlingMoves(piece, row, col, isEmpty, getPiece, isSquareAttacked, pieceHasMoved, castlingRights);
            var r := CastlingRow(piece);
            var foe := KingAttacker(piece);
            var rights := RightsOf(castlingRights, KingColor(piece));
            var own := KingColor(piece);
            |moves| <= 2 &&
            (forall sq :: sq in moves ==> sq == Square(r, 7) || sq == Square(r, 3)) &&
            (Square(r, 7) in moves <==>
               rights.kingSide && Square(row, col) !in pieceHasMoved && Square(r, 8) !in pieceHasMoved &&
               !isSquareAttacked(row, col, foe) && isEmpty(r, 6) && isEmpty(r, 7) &&
               getPiece(r, 8) == Some(Piece(own, Rook)) &&
               !isSquareAttacked(r, 6, foe) && !isSquareAttacked(r, 7, foe)) &&
            (Square(r, 3) in moves <==>
               rights.queenSide && Square(row, col) !in pieceHasMoved && Square(r, 1) !in pieceHasMoved &&
               !isSquareAttacked(row, col, foe) && isEmpty(r, 2) && isEmpty(r, 3) && isEmpty(r, 4) &&
               getPiece(r, 1) == Some(Piece(own, Rook)) &&
               !isSquareAttacked(r, 3, foe) && !isSquareAttacked(r, 4, foe))
  {
  }

  /** Every king move lies on the board. */
  lemma KingMovesOnBoard(piece: Piece, row: int, col: int, isFriendlyPiece: (Piece, int, int) -> bool,
                         isEmpty: (int, int) -> bool, getPiece: (int, int) -> Option<Piece>,
                         isSquareAttacked: (int, int, Color) -> bool, pieceHasMoved: set<Square>,
                         castlingRights: CastlingRights)
    ensures forall sq :: (sq in KingMoves(piece, row, col, isFriendlyPiece, isEmpty, getPiece, isSquareAttacked,
                                          pieceHasMoved, castlingRights)) ==> OnBoard(sq)
  {
    forall sq | sq in KingMoves(piece, row, col, isFriendlyPiece, isEmpty, getPiece, isSquareAttacked,
                                pieceHasMoved, castlingRights)
      ensures OnBoard(sq)
    {
      if sq in KingSteps(KING_DIRECTIONS, piece, row, col, isFriendlyPiece, isSquareAttacked, KingAttacker(piece)) {
        KingStepsExactly(piece, row, col, isFriendlyPiece, isSquareAttacked, sq);
      } else {
        CastlingRules(piece, row, col, isEmpty, getPiece, isSquareAttacked, pieceHasMoved, castlingRights);
      }
    }
  }
}
