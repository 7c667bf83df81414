/** Pseudo-legal move generation per piece kind (src/utils/moveGenerator.js), after
    Article 3 of the FIDE Laws of Chess. As in the source, every generator reads the
    board only through the callbacks it is given (isEmpty, isOpponent, isFriendlyPiece,
    getPiece, isSquareAttacked), and returns target squares in the order the source
    pushes them. Each generator is a method with the source's loops, proved equal to a
    specification function; the lemmas state what the source promises of those. */
module MoveGenerator {
  import opened Wrappers
  import opened ChessUtils

  type Offset = (int, int)

  const PAWN_CAPTURE_OFFSETS: seq<int> := [-1, 1]

  const KNIGHT_OFFSETS: seq<Offset> :=
    [(2, 1), (2, -1), (-2, 1), (-2, -1), (1, 2), (1, -2), (-1, 2), (-1, -2)]

  const BISHOP_DIRECTIONS: seq<Offset> := [(1, 1), (1, -1), (-1, 1), (-1, -1)]

  const ROOK_DIRECTIONS: seq<Offset> := [(1, 0), (-1, 0), (0, 1), (0, -1)]

  const KING_DIRECTIONS: seq<Offset> :=
    [(1, 1), (1, -1), (-1, 1), (-1, -1), (1, 0), (-1, 0), (0, 1), (0, -1)]

  /** The queen walks the bishop's rays and then the rook's. */
  const QUEEN_DIRECTIONS: seq<Offset> := BISHOP_DIRECTIONS + ROOK_DIRECTIONS

  /** A unit step in one of the eight compass directions. */
  predicate IsDirection(d: Offset) {
    -1 <= d.0 <= 1 && -1 <= d.1 <= 1 && d != (0, 0)
  }

  predicate AllDirections(dirs: seq<Offset>) {
    forall i :: 0 <= i < |dirs| ==> IsDirection(dirs[i])
  }

  // ================================================================== pawn

  /** White pawns move up the board (towards row 1), black pawns down. The source
      decides by comparing the piece code with WHITE_PAWN. */
  function PawnDirection(piece: Piece): int {
    if piece == Piece(White, Pawn) then -1 else 1
  }

  function PawnStartRow(piece: Piece): int {
    if piece == Piece(White, Pawn) then 7 else 2
  }

  /** The single push and, from the start row, the double push. */
  function PawnPushes(piece: Piece, row: int, col: int, isEmpty: (int, int) -> bool): seq<Square> {
    var direction := PawnDirection(piece);
    var forwardRow := row + direction;
    if IsWithinBoard(forwardRow, col) && isEmpty(forwardRow, col) then
      var doubleForwardRow := row + 2 * direction;
      [Square(forwardRow, col)] +
      (if row == PawnStartRow(piece) && isEmpty(doubleForwardRow, col) && isEmpty(forwardRow, col)
       then [Square(doubleForwardRow, col)] else [])
    else []
  }

  /** The diagonal captures tried so far, for the capture offsets `offsets`. */
  function PawnCaptures(offsets: seq<int>, forwardRow: int, col: int, isOpponent: (int, int) -> bool): seq<Square>
    decreases |offsets|
  {
    if offsets == [] then []
    else
      var captureCol := col + offsets[|offsets| - 1];
      PawnCaptures(offsets[..|offsets| - 1], forwardRow, col, isOpponent) +
      (if IsWithinBoard(forwardRow, captureCol) && isOpponent(forwardRow, captureCol)
       then [Square(forwardRow, captureCol)] else [])
  }

  /** The en-passant captures tried so far. The target square is not bounds-checked. */
  function PawnEnPassant(offsets: seq<int>, row: int, col: int, direction: int, target: Square): seq<Square>
    decreases |offsets|
  {
    if offsets == [] then []
    else
      PawnEnPassant(offsets[..|offsets| - 1], row, col, direction, target) +
      (if col + offsets[|offsets| - 1] == target.col && row == target.row - direction
       then [target] else [])
  }

  /** The result of getPawnMoves. */
  function PawnMoves(piece: Piece, row: int, col: int, isEmpty: (int, int) -> bool,
                     isOpponent: (int, int) -> bool, enPassantTarget: Option<Square>): seq<Square>
  {
    PawnPushes(piece, row, col, isEmpty) +
    PawnCaptures(PAWN_CAPTURE_OFFSETS, row + PawnDirection(piece), col, isOpponent) +
    (if enPassantTarget.Some?
     then PawnEnPassant(PAWN_CAPTURE_OFFSETS, row, col, PawnDirection(piece), enPassantTarget.value)
     else [])
  }

  /** getPawnMoves, one source block per helper below. */
  method GetPawnMoves(piece: Piece, selectedRow: int, selectedCol: int, isEmpty: (int, int) -> bool,
                      isOpponent: (int, int) -> bool, enPassantTarget: Option<Square>)
    returns (moves: seq<Square>)
    ensures moves == PawnMoves(piece, selectedRow, selectedCol, isEmpty, isOpponent, enPassantTarget)
  {
    var direction := if piece == Piece(White, Pawn) then -1 else 1;
    var pushes := GetPawnPushes(piece, selectedRow, selectedCol, direction, isEmpty);
    var captures := GetPawnCaptures(selectedRow + direction, selectedCol, isOpponent);
    moves := pushes + captures;
    if enPassantTarget.Some? {
      var enPassant := GetPawnEnPassant(selectedRow, selectedCol, direction, enPassantTarget.value);
      moves := moves + enPassant;
    }
  }

  method GetPawnPushes(piece: Piece, selectedRow: int, selectedCol: int, direction: int, isEmpty: (int, int) -> bool)
    returns (moves: seq<Square>)
    requires direction == PawnDirection(piece)
    ensures moves == PawnPushes(piece, selectedRow, selectedCol, isEmpty)
  {
    moves := [];
    var pawnStartRow := if piece == Piece(White, Pawn) then 7 else 2;
    // Single forward push, and the double push from the start row
    var forwardRow := selectedRow + direction;
    if IsWithinBoard(forwardRow, selectedCol) && isEmpty(forwardRow, selectedCol) {
      moves := moves + [Square(forwardRow, selectedCol)];
      var doubleForwardRow := selectedRow + 2 * direction;
      if selectedRow == pawnStartRow && isEmpty(doubleForwardRow, selectedCol) && isEmpty(forwardRow, selectedCol) {
        moves := moves + [Square(doubleForwardRow, selectedCol)];
      }
    }
  }

  method GetPawnCaptures(forwardRow: int, selectedCol: int, isOpponent: (int, int) -> bool)
    returns (moves: seq<Square>)
    ensures moves == PawnCaptures(PAWN_CAPTURE_OFFSETS, forwardRow, selectedCol, isOpponent)
  {
    moves := [];
    for i := 0 to |PAWN_CAPTURE_OFFSETS|
      invariant moves == PawnCaptures(PAWN_CAPTURE_OFFSETS[..i], forwardRow, selectedCol, isOpponent)
    {
      var captureCol := selectedCol + PAWN_CAPTURE_OFFSETS[i];
      if IsWithinBoard(forwardRow, captureCol) && isOpponent(forwardRow, captureCol) {
        moves := moves + [Square(forwardRow, captureCol)];
      }
      assert PAWN_CAPTURE_OFFSETS[..i + 1][..i] == PAWN_CAPTURE_OFFSETS[..i];
    }
    assert PAWN_CAPTURE_OFFSETS[..|PAWN_CAPTURE_OFFSETS|] == PAWN_CAPTURE_OFFSETS;
  }

  method GetPawnEnPassant(selectedRow: int, selectedCol: int, direction: int, target: Square)
    returns (moves: seq<Square>)
    ensures moves == PawnEnPassant(PAWN_CAPTURE_OFFSETS, selectedRow, selectedCol, direction, target)
  {
    moves := [];
    var epRow, epCol := target.row, target.col;
    for i := 0 to |PAWN_CAPTURE_OFFSETS|
      invariant moves == PawnEnPassant(PAWN_CAPTURE_OFFSETS[..i], selectedRow, selectedCol, direction, target)
    {
      if selectedCol + PAWN_CAPTURE_OFFSETS[i] == epCol && selectedRow == epRow - direction {
        moves := moves + [Square(epRow, epCol)];
      }
      assert PAWN_CAPTURE_OFFSETS[..i + 1][..i] == PAWN_CAPTURE_OFFSETS[..i];
    }
    assert PAWN_CAPTURE_OFFSETS[..|PAWN_CAPTURE_OFFSETS|] == PAWN_CAPTURE_OFFSETS;
  }

  // ================================================================ knight

  /** The in-board targets among `offsets` that hold no friendly piece, in order. */
  function KnightTargets(offsets: seq<Offset>, piece: Piece, row: int, col: int,
                         isFriendlyPiece: (Piece, int, int) -> bool): seq<Square>
    decreases |offsets|
  {
    if offsets == [] then []
    else
      var o := offsets[|offsets| - 1];
      var targetRow, targetCol := row + o.0, col + o.1;
      KnightTargets(offsets[..|offsets| - 1], piece, row, col, isFriendlyPiece) +
      (if IsWithinBoard(targetRow, targetCol) && !isFriendlyPiece(piece, targetRow, targetCol)
       then [Square(targetRow, targetCol)] else [])
  }

  /** The result of getKnightMoves. */
  function KnightMoves(piece: Piece, row: int, col: int, isFriendlyPiece: (Piece, int, int) -> bool): seq<Square> {
    KnightTargets(KNIGHT_OFFSETS, piece, row, col, isFriendlyPiece)
  }

  method GetKnightMoves(piece: Piece, selectedRow: int, selectedCol: int, isFriendlyPiece: (Piece, int, int) -> bool)
    returns (moves: seq<Square>)
    ensures moves == KnightMoves(piece, selectedRow, selectedCol, isFriendlyPiece)
  {
    moves := [];
    for i := 0 to |KNIGHT_OFFSETS|
      invariant moves == KnightTargets(KNIGHT_OFFSETS[..i], piece, selectedRow, selectedCol, isFriendlyPiece)
    {
      var targetRow := selectedRow + KNIGHT_OFFSETS[i].0;
      var targetCol := selectedCol + KNIGHT_OFFSETS[i].1;
      if IsWithinBoard(targetRow, targetCol) && !isFriendlyPiece(piece, targetRow, targetCol) {
        moves := moves + [Square(targetRow, targetCol)];
      }
      assert KNIGHT_OFFSETS[..i + 1][..i] == KNIGHT_OFFSETS[..i];
    }
    assert KNIGHT_OFFSETS[..|KNIGHT_OFFSETS|] == KNIGHT_OFFSETS;
  }

  // ========================================================= bishop, rook, queen

  /** How many more steps in direction (dr, dc) stay on the board from (row, col). */
  function EdgeDistance(row: int, col: int, dr: int, dc: int): nat {
    if !IsWithinBoard(row, col) then 0
    else (if dr > 0 then 9 - row else if dr < 0 then row else 0) +
         (if dc > 0 then 9 - col else if dc < 0 then col else 0)
  }

  /** One ray of a sliding piece, from target (row, col) on: stop before a friendly
      piece or the edge, stop after an opponent or any other occupied square. */
  function Ray(piece: Piece, row: int, col: int, dr: int, dc: int,
               isFriendlyPiece: (Piece, int, int) -> bool, isEmpty: (int, int) -> bool,
               isOpponent: (int, int) -> bool): seq<Square>
    requires IsDirection((dr, dc))
    decreases EdgeDistance(row, col, dr, dc)
  {
    if !IsWithinBoard(row, col) || isFriendlyPiece(piece, row, col) then []
    else if isOpponent(row, col) || !isEmpty(row, col) then [Square(row, col)]
    else [Square(row, col)] + Ray(piece, row + dr, col + dc, dr, dc, isFriendlyPiece, isEmpty, isOpponent)
  }

  /** The rays from (row, col) along `dirs`, one after another. */
  function SlidingMoves(dirs: seq<Offset>, piece: Piece, row: int, col: int,
                        isFriendlyPiece: (Piece, int, int) -> bool, isEmpty: (int, int) -> bool,
                        isOpponent: (int, int) -> bool): seq<Square>
    requires AllDirections(dirs)
    decreases |dirs|
  {
    if dirs == [] then []
    else
      var d := dirs[|dirs| - 1];
      SlidingMoves(dirs[..|dirs| - 1], piece, row, col, isFriendlyPiece, isEmpty, isOpponent) +
      Ray(piece, row + d.0, col + d.1, d.0, d.1, isFriendlyPiece, isEmpty, isOpponent)
  }

  /** The result of getBishopMoves. */
  function BishopMoves(piece: Piece, row: int, col: int, isFriendlyPiece: (Piece, int, int) -> bool,
                       isEmpty: (int, int) -> bool, isOpponent: (int, int) -> bool): seq<Square>
  {
    SlidingMoves(BISHOP_DIRECTIONS, piece, row, col, isFriendlyPiece, isEmpty, isOpponent)
  }

  /** The result of getRookMoves. */
  function RookMoves(piece: Piece, row: int, col: int, isFriendlyPiece: (Piece, int, int) -> bool,
                     isEmpty: (int, int) -> bool, isOpponent: (int, int) -> bool): seq<Square>
  {
    SlidingMoves(ROOK_DIRECTIONS, piece, row, col, isFriendlyPiece, isEmpty, isOpponent)
  }

  /** The result of getQueenMoves. */
  function QueenMoves(piece: Piece, row: int, col: int, isFriendlyPiece: (Piece, int, int) -> bool,
                      isEmpty: (int, int) -> bool, isOpponent: (int, int) -> bool): seq<Square>
  {
    SlidingMoves(QUEEN_DIRECTIONS, piece, row, col, isFriendlyPiece, isEmpty, isOpponent)
  }

  /** The `for ... of directions` loop that the source writes out twice, once in
      getBishopMoves and once in getRookMoves. */
  method SlideAlong(dirs: seq<Offset>, piece: Piece, selectedRow: int, selectedCol: int,
                    isFriendlyPiece: (Piece, int, int) -> bool, isEmpty: (int, int) -> bool,
                    isOpponent: (int, int) -> bool)
    returns (moves: seq<Square>)
    requires AllDirections(dirs)
    ensures moves == SlidingMoves(dirs, piece, selectedRow, selectedCol, isFriendlyPiece, isEmpty, isOpponent)
  {
    moves := [];
    for i := 0 to |dirs|
      invariant moves == SlidingMoves(dirs[..i], piece, selectedRow, selectedCol, isFriendlyPiece, isEmpty, isOpponent)
    {
      SlidingStep(dirs, i, piece, selectedRow, selectedCol, isFriendlyPiece, isEmpty, isOpponent);
      var rowOffset, colOffset := dirs[i].0, dirs[i].1;
      var ray := WalkRay(piece, selectedRow, selectedCol, rowOffset, colOffset, isFriendlyPiece, isEmpty, isOpponent);
      moves := moves + ray;
    }
    assert dirs[..|dirs|] == dirs;
  }

  /** The rays along the first i + 1 directions are those along the first i, then one more. */
  lemma SlidingStep(dirs: seq<Offset>, i: nat, piece: Piece, row: int, col: int,
                    isFriendlyPiece: (Piece, int, int) -> bool, isEmpty: (int, int) -> bool,
                    isOpponent: (int, int) -> bool)
    requires AllDirections(dirs) && i < |dirs|
    ensures AllDirections(dirs[..i]) && IsDirection(dirs[i])
    ensures SlidingMoves(dirs[..i + 1], piece, row, col, isFriendlyPiece, isEmpty, isOpponent) ==
            SlidingMoves(dirs[..i], piece, row, col, isFriendlyPiece, isEmpty, isOpponent) +
            Ray(piece, row + dirs[i].0, col + dirs[i].1, dirs[i].0, dirs[i].1, isFriendlyPiece, isEmpty, isOpponent)
  {
    assert dirs[..i + 1][..i] == dirs[..i];
  }

  /** The inner `while (true)` loop for one direction. The source recomputes the target
      as `selected + offset * distance` with `distance` counting up from 1; here the
      target itself advances by one offset per iteration, which visits the same squares. */
  method WalkRay(piece: Piece, selectedRow: int, selectedCol: int, rowOffset: int, colOffset: int,
                 isFriendlyPiece: (Piece, int, int) -> bool, isEmpty: (int, int) -> bool,
                 isOpponent: (int, int) -> bool)
    returns (moves: seq<Square>)
    requires IsDirection((rowOffset, colOffset))
    ensures moves == Ray(piece, selectedRow + rowOffset, selectedCol + colOffset, rowOffset, colOffset,
                         isFriendlyPiece, isEmpty, isOpponent)
  {
    moves := [];
    var targetRow, targetCol := selectedRow + rowOffset, selectedCol + colOffset;
    while true
      invariant moves + Ray(piece, targetRow, targetCol, rowOffset, colOffset, isFriendlyPiece, isEmpty, isOpponent)
                == Ray(piece, selectedRow + rowOffset, selectedCol + colOffset, rowOffset, colOffset,
                       isFriendlyPiece, isEmpty, isOpponent)
      decreases EdgeDistance(targetRow, targetCol, rowOffset, colOffset)
    {
      RayStop(piece, targetRow, targetCol, rowOffset, colOffset, isFriendlyPiece, isEmpty, isOpponent);
      if !IsWithinBoard(targetRow, targetCol) { break; }
      if isFriendlyPiece(piece, targetRow, targetCol) { break; }
      RayStep(moves, piece, targetRow, targetCol, rowOffset, colOffset, isFriendlyPiece, isEmpty, isOpponent);

      moves := moves + [Square(targetRow, targetCol)];

      if isOpponent(targetRow, targetCol) { break; } // Stop after capture
      if !isEmpty(targetRow, targetCol) { break; }
      targetRow, targetCol := targetRow + rowOffset, targetCol + colOffset;
    }
  }

  /** WalkRay stops at the edge and before a friendly piece. */
  lemma RayStop(piece: Piece, row: int, col: int, dr: int, dc: int,
                isFriendlyPiece: (Piece, int, int) -> bool, isEmpty: (int, int) -> bool,
                isOpponent: (int, int) -> bool)
    requires IsDirection((dr, dc))
    ensures !IsWithinBoard(row, col) || isFriendlyPiece(piece, row, col) ==>
            Ray(piece, row, col, dr, dc, isFriendlyPiece, isEmpty, isOpponent) == []
  {
  }

  /** One step of WalkRay: an in-board target without a friendly piece is taken, and the
      walk goes on past it only when it is empty and not an opponent piece. */
  lemma RayStep(moves: seq<Square>, piece: Piece, row: int, col: int, dr: int, dc: int,
                isFriendlyPiece: (Piece, int, int) -> bool, isEmpty: (int, int) -> bool,
                isOpponent: (int, int) -> bool)
    requires IsDirection((dr, dc))
    requires IsWithinBoard(row, col) && !isFriendlyPiece(piece, row, col)
    ensures moves + Ray(piece, row, col, dr, dc, isFriendlyPiece, isEmpty, isOpponent) ==
            (moves + [Square(row, col)]) +
            (if isOpponent(row, col) || !isEmpty(row, col) then []
             else Ray(piece, row + dr, col + dc, dr, dc, isFriendlyPiece, isEmpty, isOpponent))
    ensures EdgeDistance(row + dr, col + dc, dr, dc) < EdgeDistance(row, col, dr, dc)
  {
  }

  method GetBishopMoves(piece: Piece, selectedRow: int, selectedCol: int, isFriendlyPiece: (Piece, int, int) -> bool,
                        isEmpty: (int, int) -> bool, isOpponent: (int, int) -> bool)
    returns (moves: seq<Square>)
    ensures moves == BishopMoves(piece, selectedRow, selectedCol, isFriendlyPiece, isEmpty, isOpponent)
  {
    moves := SlideAlong(BISHOP_DIRECTIONS, piece, selectedRow, selectedCol, isFriendlyPiece, isEmpty, isOpponent);
  }

  method GetRookMoves(piece: Piece, selectedRow: int, selectedCol: int, isFriendlyPiece: (Piece, int, int) -> bool,
                      isEmpty: (int, int) -> bool, isOpponent: (int, int) -> bool)
    returns (moves: seq<Square>)
    ensures moves == RookMoves(piece, selectedRow, selectedCol, isFriendlyPiece, isEmpty, isOpponent)
  {
    moves := SlideAlong(ROOK_DIRECTIONS, piece, selectedRow, selectedCol, isFriendlyPiece, isEmpty, isOpponent);
  }

  /** getQueenMoves concatenates the bishop's result and the rook's. */
  method GetQueenMoves(piece: Piece, selectedRow: int, selectedCol: int, isFriendlyPiece: (Piece, int, int) -> bool,
                       isEmpty: (int, int) -> bool, isOpponent: (int, int) -> bool)
    returns (moves: seq<Square>)
    ensures moves == QueenMoves(piece, selectedRow, selectedCol, isFriendlyPiece, isEmpty, isOpponent)
  {
    var bishop := GetBishopMoves(piece, selectedRow, selectedCol, isFriendlyPiece, isEmpty, isOpponent);
    var rook := GetRookMoves(piece, selectedRow, selectedCol, isFriendlyPiece, isEmpty, isOpponent);
    moves := bishop + rook;
    QueenIsBishopThenRook(piece, selectedRow, selectedCol, isFriendlyPiece, isEmpty, isOpponent);
  }

  // ================================================================== king

  /** The adjacent in-board targets that hold no friendly piece and that the side
      `attacker` does not attack; the attack test is whatever callback the caller gives. */
  function KingSteps(offsets: seq<Offset>, piece: Piece, row: int, col: int,
                     isFriendlyPiece: (Piece, int, int) -> bool,
                     isSquareAttacked: (int, int, Color) -> bool, attacker: Color): seq<Square>
    decreases |offsets|
  {
    if offsets == [] then []
    else
      var o := offsets[|offsets| - 1];
      var targetRow, targetCol := row + o.0, col + o.1;
      KingSteps(offsets[..|offsets| - 1], piece, row, col, isFriendlyPiece, isSquareAttacked, attacker) +
      (if IsWithinBoard(targetRow, targetCol) && !isFriendlyPiece(piece, targetRow, targetCol) &&
          !isSquareAttacked(targetRow, targetCol, attacker)
       then [Square(targetRow, targetCol)] else [])
  }

  /** The colour of the side that attacks a king: the source tests `pieceCode === WHITE_KING`. */
  function KingAttacker(piece: Piece): Color {
    if piece == Piece(White, King) then Black else White
  }

  /** The fixed castling row: row 8 (rank 1) for a white king, row 1 (rank 8) otherwise,
      wherever the king actually stands. */
  function CastlingRow(piece: Piece): int {
    if piece == Piece(White, King) then 8 else 1
  }

  function KingColor(piece: Piece): Color {
    if piece == Piece(White, King) then White else Black
  }

  /** Kingside castling to column 7 of the castling row (the king's own square, its
      being unmoved and not in check are checked by CastlingMoves). */
  function KingSideCastle(piece: Piece, isEmpty: (int, int) -> bool, getPiece: (int, int) -> Option<Piece>,
                          isSquareAttacked: (int, int, Color) -> bool, pieceHasMoved: set<Square>,
                          rights: Rights): seq<Square>
  {
    var row := CastlingRow(piece);
    var attacker := KingAttacker(piece);
    if rights.kingSide && Square(row, 8) !in pieceHasMoved && isEmpty(row, 6) && isEmpty(row, 7) &&
       getPiece(row, 8) == Some(Piece(KingColor(piece), Rook)) &&
       !isSquareAttacked(row, 6, attacker) && !isSquareAttacked(row, 7, attacker)
    then [Square(row, 7)]
    else []
  }

  /** Queenside castling to column 3: columns 2-4 empty, columns 3 and 4 not attacked. */
  function QueenSideCastle(piece: Piece, isEmpty: (int, int) -> bool, getPiece: (int, int) -> Option<Piece>,
                           isSquareAttacked: (int, int, Color) -> bool, pieceHasMoved: set<Square>,
                           rights: Rights): seq<Square>
  {
    var row := CastlingRow(piece);
    var attacker := KingAttacker(piece);
    var passesThroughCheck := isSquareAttacked(row, 4, attacker) || isSquareAttacked(row, 3, attacker);
    var endsInCheck := isSquareAttacked(row, 3, attacker);
    if rights.queenSide && Square(row, 1) !in pieceHasMoved && isEmpty(row, 2) && isEmpty(row, 3) &&
       isEmpty(row, 4) && getPiece(row, 1) == Some(Piece(KingColor(piece), Rook)) &&
       !passesThroughCheck && !endsInCheck
    then [Square(row, 3)]
    else []
  }

  /** Castling targets: none unless the king's own square is unmoved and not attacked. */
  function CastlingMoves(piece: Piece, row: int, col: int, isEmpty: (int, int) -> bool,
                         getPiece: (int, int) -> Option<Piece>, isSquareAttacked: (int, int, Color) -> bool,
                         pieceHasMoved: set<Square>, castlingRights: CastlingRights): seq<Square>
  {
    var rights := if piece == Piece(White, King) then castlingRights.white else castlingRights.black;
    var kingInCheck := isSquareAttacked(row, col, KingAttacker(piece));
    if Square(row, col) !in pieceHasMoved && !kingInCheck then
      KingSideCastle(piece, isEmpty, getPiece, isSquareAttacked, pieceHasMoved, rights) +
      QueenSideCastle(piece, isEmpty, getPiece, isSquareAttacked, pieceHasMoved, rights)
    else []
  }

  /** The result of getKingMoves. */
  function KingMoves(piece: Piece, row: int, col: int, isFriendlyPiece: (Piece, int, int) -> bool,
                     isEmpty: (int, int) -> bool, getPiece: (int, int) -> Option<Piece>,
                     isSquareAttacked: (int, int, Color) -> bool, pieceHasMoved: set<Square>,
                     castlingRights: CastlingRights): seq<Square>
  {
    KingSteps(KING_DIRECTIONS, piece, row, col, isFriendlyPiece, isSquareAttacked, KingAttacker(piece)) +
    CastlingMoves(piece, row, col, isEmpty, getPiece, isSquareAttacked, pieceHasMoved, castlingRights)
  }

  /** getKingMoves: the adjacent steps that do not walk into check, then castling. */
  method GetKingMoves(piece: Piece, selectedRow: int, selectedCol: int, isFriendlyPiece: (Piece, int, int) -> bool,
                      isEmpty: (int, int) -> bool, getPiece: (int, int) -> Option<Piece>,
                      isSquareAttacked: (int, int, Color) -> bool, pieceHasMoved: set<Square>,
                      castlingRights: CastlingRights)
    returns (moves: seq<Square>)
    ensures moves == KingMoves(piece, selectedRow, selectedCol, isFriendlyPiece, isEmpty, getPiece,
                               isSquareAttacked, pieceHasMoved, castlingRights)
  {
    var steps := GetKingSteps(KING_DIRECTIONS, piece, selectedRow, selectedCol, isFriendlyPiece, isSquareAttacked);
    var castling := GetCastlingMoves(piece, selectedRow, selectedCol, isEmpty, getPiece, isSquareAttacked,
                                     pieceHasMoved, castlingRights);
    moves := steps + castling;
  }

  /** The regular king moves of getKingMoves, over the king's `directions`: moving into
      check is not allowed. */
  method GetKingSteps(offsets: seq<Offset>, piece: Piece, selectedRow: int, selectedCol: int,
                      isFriendlyPiece: (Piece, int, int) -> bool, isSquareAttacked: (int, int, Color) -> bool)
    returns (moves: seq<Square>)
    ensures moves == KingSteps(offsets, piece, selectedRow, selectedCol, isFriendlyPiece,
                               isSquareAttacked, KingAttacker(piece))
  {
    moves := [];
    var isWhite := piece == Piece(White, King);
    var opponent := if isWhite then Black else White;
    for i := 0 to |offsets|
      invariant moves == KingSteps(offsets[..i], piece, selectedRow, selectedCol, isFriendlyPiece,
                                   isSquareAttacked, opponent)
    {
      KingStepsStep(offsets, i, piece, selectedRow, selectedCol, isFriendlyPiece, isSquareAttacked, opponent);
      var (rowOffset, colOffset) := offsets[i];
      var targetRow := selectedRow + rowOffset;
      var targetCol := selectedCol + colOffset;
      if !IsWithinBoard(targetRow, targetCol) { continue; }
      if isFriendlyPiece(piece, targetRow, targetCol) { continue; }
      if !isSquareAttacked(targetRow, targetCol, opponent) {
        moves := moves + [Square(targetRow, targetCol)];
      }
    }
    assert offsets[..|offsets|] == offsets;
  }

  /** The steps along the first i + 1 offsets are those along the first i, then one more. */
  lemma KingStepsStep(offsets: seq<Offset>, i: nat, piece: Piece, row: int, col: int,
                      isFriendlyPiece: (Piece, int, int) -> bool,
                      isSquareAttacked: (int, int, Color) -> bool, attacker: Color)
    requires i < |offsets|
    ensures var (targetRow, targetCol) := (row + offsets[i].0, col + offsets[i].1);
            KingSteps(offsets[..i + 1], piece, row, col, isFriendlyPiece, isSquareAttacked, attacker) ==
            KingSteps(offsets[..i], piece, row, col, isFriendlyPiece, isSquareAttacked, attacker) +
            (if IsWithinBoard(targetRow, targetCol) && !isFriendlyPiece(piece, targetRow, targetCol) &&
                !isSquareAttacked(targetRow, targetCol, attacker)
             then [Square(targetRow, targetCol)] else [])
  {
    assert offsets[..i + 1][..i] == offsets[..i];
  }

  /** The castling part of getKingMoves. */
  method GetCastlingMoves(piece: Piece, selectedRow: int, selectedCol: int, isEmpty: (int, int) -> bool,
                          getPiece: (int, int) -> Option<Piece>, isSquareAttacked: (int, int, Color) -> bool,
                          pieceHasMoved: set<Square>, castlingRights: CastlingRights)
    returns (moves: seq<Square>)
    ensures moves == CastlingMoves(piece, selectedRow, selectedCol, isEmpty, getPiece, isSquareAttacked,
                                   pieceHasMoved, castlingRights)
  {
    moves := [];
    var isWhite := piece == Piece(White, King);
    var opponent := if isWhite then Black else White;
    var rights := if isWhite then castlingRights.white else castlingRights.black;
    var row := if isWhite then 8 else 1;
    var kingInCheck := isSquareAttacked(selectedRow, selectedCol, opponent);
    if Square(selectedRow, selectedCol) !in pieceHasMoved && !kingInCheck {
      if rights.kingSide {
        if Square(row, 8) !in pieceHasMoved && isEmpty(row, 6) && isEmpty(row, 7) && getPiece(row, 8).Some? {
          var rookCode := getPiece(row, 8).value;
          if rookCode == (if isWhite then Piece(White, Rook) else Piece(Black, Rook)) {
            var passesThroughCheck := isSquareAttacked(row, 6, opponent);
            var endsInCheck := isSquareAttacked(row, 7, opponent);
            if !passesThroughCheck && !endsInCheck {
              moves := moves + [Square(row, 7)];
            }
          }
        }
      }
      ghost var kingSide := moves;
      if rights.queenSide {
        if Square(row, 1) !in pieceHasMoved && isEmpty(row, 2) && isEmpty(row, 3) && isEmpty(row, 4) &&
           getPiece(row, 1).Some? {
          var rookCode := getPiece(row, 1).value;
          if rookCode == (if isWhite then Piece(White, Rook) else Piece(Black, Rook)) {
            var passesThroughCheck := isSquareAttacked(row, 4, opponent) || isSquareAttacked(row, 3, opponent);
            var endsInCheck := isSquareAttacked(row, 3, opponent);
            if !passesThroughCheck && !endsInCheck {
              moves := moves + [Square(row, 3)];
            }
          }
        }
      }
      assert kingSide == KingSideCastle(piece, isEmpty, getPiece, isSquareAttacked, pieceHasMoved, rights);
    }
  }

  // =============================================================== lemmas

  /** The queen's result is the bishop's result followed by the rook's. */
  lemma QueenIsBishopThenRook(piece: Piece, row: int, col: int, isFriendlyPiece: (Piece, int, int) -> bool,
                              isEmpty: (int, int) -> bool, isOpponent: (int, int) -> bool)
    ensures QueenMoves(piece, row, col, isFriendlyPiece, isEmpty, isOpponent) ==
            BishopMoves(piece, row, col, isFriendlyPiece, isEmpty, isOpponent) +
            RookMoves(piece, row, col, isFriendlyPiece, isEmpty, isOpponent)
  {
    SlidingAppend(BISHOP_DIRECTIONS, ROOK_DIRECTIONS, piece, row, col, isFriendlyPiece, isEmpty, isOpponent);
  }

  lemma DirectionsAppend(a: seq<Offset>, b: seq<Offset>)
    requires AllDirections(a) && AllDirections(b)
    ensures AllDirections(a + b)
  {
    forall i | 0 <= i < |a + b| ensures IsDirection((a + b)[i]) {
      if i < |a| { assert (a + b)[i] == a[i]; } else { assert (a + b)[i] == b[i - |a|]; }
    }
  }

  lemma {:induction false} SlidingAppend(a: seq<Offset>, b: seq<Offset>, piece: Piece, row: int, col: int,
                                        isFriendlyPiece: (Piece, int, int) -> bool, isEmpty: (int, int) -> bool,
                                        isOpponent: (int, int) -> bool)
    requires AllDirections(a) && AllDirections(b)
    ensures AllDirections(a + b)
    ensures SlidingMoves(a + b, piece, row, col, isFriendlyPiece, isEmpty, isOpponent) ==
            SlidingMoves(a, piece, row, col, isFriendlyPiece, isEmpty, isOpponent) +
            SlidingMoves(b, piece, row, col, isFriendlyPiece, isEmpty, isOpponent)
    decreases |b|
  {
    DirectionsAppend(a, b);
    if b == [] {
      assert a + b == a;
    } else {
      var b' := b[..|b| - 1];
      assert (a + b)[..|a + b| - 1] == a + b';
      assert (a + b)[|a + b| - 1] == b[|b| - 1];
      SlidingAppend(a, b', piece, row, col, isFriendlyPiece, isEmpty, isOpponent);
    }
  }
}
