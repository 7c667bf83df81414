/** The game state that useChessEngine (src/utils/chessEngine.js) keeps, and what its
    queries and transitions compute, written as functions of that state. The class
    ChessEngine.Engine holds the same state in fields and is proved to follow these
    functions step for step. */
module EngineState {
  import opened Wrappers
  import opened ChessUtils
  import opened MoveGenerator
  import opened FenUtils

  /** The `pieces` object: a piece per occupied square. */
  type Board = map<Square, Piece>

  datatype InCheck = InCheck(white: bool, black: bool)

  /** The fields declared at the top of useChessEngine. `pieceHasMoved` holds the
      squares whose entry is true; the selection and the en-passant target are squares
      rather than square names. */
  datatype GameState = GameState(
    pieces: Board,
    selectedSquare: Option<Square>,
    currentPlayer: Color,
    capturedByWhite: seq<Piece>,
    capturedByBlack: seq<Piece>,
    enPassantTarget: Option<Square>,
    castlingRights: CastlingRights,
    pieceHasMoved: set<Square>,
    inCheck: InCheck,
    halfmoveClock: int,
    fullmoveNumber: int)

  const ALL_RIGHTS: CastlingRights := CastlingRights(Rights(true, true), Rights(true, true))

  /** The state useChessEngine starts from. */
  function InitialState(): GameState {
    GameState(InitialPieces, None, White, [], [], None, ALL_RIGHTS, {}, InCheck(false, false), 0, 1)
  }

  /** What every reachable state satisfies: pieces, selection and en-passant target on
      the board, the target on rank 3 or 6, and counters in the ranges parseFen accepts
      (halfmove at least 0, fullmove at least 1). */
  predicate ValidState(s: GameState) {
    (forall sq :: sq in s.pieces ==> OnBoard(sq)) &&
    (s.selectedSquare.Some? ==> OnBoard(s.selectedSquare.value)) &&
    (s.enPassantTarget.Some? ==>
       OnBoard(s.enPassantTarget.value) &&
       (s.enPassantTarget.value.row == 3 || s.enPassantTarget.value.row == 6)) &&
    s.halfmoveClock >= 0 && s.fullmoveNumber >= 1
  }

  // ================================================================ lookups

  /** getPiece: the piece on the square toAlgebraic(row, col) names, if any. */
  function GetPiece(board: Board, row: int, col: int): Option<Piece> {
    if Square(row, col) in board then Some(board[Square(row, col)]) else None
  }

  predicate IsEmpty(board: Board, row: int, col: int) {
    GetPiece(board, row, col).None?
  }

  /** isOpponent: the target holds a piece whose code lies on the other side of the
      white/black split from the code of the selected piece. */
  predicate IsOpponent(s: GameState, row: int, col: int) {
    var piece := GetPiece(s.pieces, row, col);
    if piece.None? || s.selectedSquare.None? then false
    else if s.selectedSquare.value !in s.pieces then false
    else
      var selectedCode := Code(s.pieces[s.selectedSquare.value]);
      var targetCode := Code(piece.value);
      (selectedCode <= WHITE_PAWN && targetCode >= BLACK_KING) ||
      (selectedCode >= BLACK_KING && targetCode <= WHITE_PAWN)
  }

  /** isFriendlyPiece: the target holds a piece on the same side of the split as `piece`. */
  predicate IsFriendlyPiece(board: Board, piece: Piece, row: int, col: int) {
    var target := GetPiece(board, row, col);
    target.Some? && ((Code(piece) <= WHITE_PAWN) == (Code(target.value) <= WHITE_PAWN))
  }

  // ================================================================ attacks

  /** Whether `attacker` stands on the in-board square (row, col). The source compares
      piece codes, which name pieces one to one (ChessUtils.CodeInjective). */
  predicate AttackerAt(board: Board, row: int, col: int, attacker: Piece) {
    IsWithinBoard(row, col) && GetPiece(board, row, col) == Some(attacker)
  }

  /** The row offset at which isSquareAttacked looks for an attacking pawn. */
  function PawnAttackDirection(side: Color): int {
    if side == White then -1 else 1
  }

  /** Some column offset puts an attacking pawn of colour `side` one row towards
      PawnAttackDirection(side). */
  predicate PawnAttack(colOffsets: seq<int>, board: Board, row: int, col: int, side: Color) {
    exists i :: 0 <= i < |colOffsets| &&
      AttackerAt(board, row + PawnAttackDirection(side), col + colOffsets[i], Piece(side, Pawn))
  }

  /** Some offset puts `attacker` on its square. */
  predicate LeaperAttack(offsets: seq<Offset>, board: Board, row: int, col: int, attacker: Piece) {
    exists i :: 0 <= i < |offsets| && AttackerAt(board, row + offsets[i].0, col + offsets[i].1, attacker)
  }

  /** The first piece met walking from (row, col) in direction (dr, dc), the start
      square included, before leaving the board. */
  function FirstPiece(board: Board, row: int, col: int, dr: int, dc: int): Option<Piece>
    requires IsDirection((dr, dc))
    decreases EdgeDistance(row, col, dr, dc)
  {
    if !IsWithinBoard(row, col) then None
    else if GetPiece(board, row, col).Some? then GetPiece(board, row, col)
    else FirstPiece(board, row + dr, col + dc, dr, dc)
  }

  /** Whether the first piece along direction `d` from (row, col) is `attacker` or `queen`. */
  predicate RayAttack(board: Board, row: int, col: int, d: Offset, attacker: Piece, queen: Piece)
    requires IsDirection(d)
  {
    var first := FirstPiece(board, row + d.0, col + d.1, d.0, d.1);
    first == Some(attacker) || first == Some(queen)
  }

  predicate SliderAttack(dirs: seq<Offset>, board: Board, row: int, col: int, attacker: Piece, queen: Piece)
    requires AllDirections(dirs)
  {
    exists i :: 0 <= i < |dirs| && RayAttack(board, row, col, dirs[i], attacker, queen)
  }

  /** isSquareAttacked(row, col, byWhite): a pawn, knight, bishop or queen on a
      diagonal, rook or queen on a line, or king of colour `side` attacks the square, in
      the source's own terms (so pawns are looked for on the side they move away from). */
  predicate SquareAttacked(board: Board, row: int, col: int, side: Color) {
    PawnAttack(PAWN_CAPTURE_OFFSETS, board, row, col, side) ||
    LeaperAttack(KNIGHT_OFFSETS, board, row, col, Piece(side, Knight)) ||
    SliderAttack(BISHOP_DIRECTIONS, board, row, col, Piece(side, Bishop), Piece(side, Queen)) ||
    SliderAttack(ROOK_DIRECTIONS, board, row, col, Piece(side, Rook), Piece(side, Queen)) ||
    LeaperAttack(KING_DIRECTIONS, board, row, col, Piece(side, King))
  }

  // =============================================================== king scan

  /** The first column from `col` to 8 of board row `row` that holds `king`. */
  function FirstKingColumn(board: Board, row: int, col: int, king: Piece): (c: Option<int>)
    ensures c.Some? ==> col <= c.value <= 8 && GetPiece(board, row, c.value) == Some(king)
    decreases 9 - col
  {
    if col > 8 then None
    else if GetPiece(board, row, col) == Some(king) then Some(col)
    else FirstKingColumn(board, row, col + 1, king)
  }

  /** The square the scan of rows 1 to `rows` reports: the inner loop stops at the first
      match in a row, the outer loop goes on, so the last row with a match wins. */
  function KingScan(board: Board, rows: int, king: Piece): Option<Square>
    decreases rows
  {
    if rows < 1 then None
    else
      match FirstKingColumn(board, rows, 1, king)
      case Some(c) => Some(Square(rows, c))
      case None => KingScan(board, rows - 1, king)
  }

  function KingSquare(board: Board, king: Piece): Option<Square> {
    KingScan(board, 8, king)
  }

  /** isKingInCheck: false when the scan finds no king of colour `c`, otherwise whether
      the other side attacks the square it found. */
  predicate KingInCheck(board: Board, c: Color) {
    var k := KingSquare(board, Piece(c, King));
    k.Some? && SquareAttacked(board, k.value.row, k.value.col, Opponent(c))
  }

  // ========================================================== possible moves

  /** The callbacks useChessEngine hands to the move generators, each a closure over
      the current state. */
  function PieceLookup(board: Board): (int, int) -> Option<Piece> {
    (r: int, c: int) => GetPiece(board, r, c)
  }

  function EmptyTest(board: Board): (int, int) -> bool {
    (r: int, c: int) => IsEmpty(board, r, c)
  }

  function OpponentTest(s: GameState): (int, int) -> bool {
    (r: int, c: int) => IsOpponent(s, r, c)
  }

  function FriendlyTest(board: Board): (Piece, int, int) -> bool {
    (p: Piece, r: int, c: int) => IsFriendlyPiece(board, p, r, c)
  }

  function AttackTest(board: Board): (int, int, Color) -> bool {
    (r: int, c: int, side: Color) => SquareAttacked(board, r, c, side)
  }

  /** possibleMoves: the generator for the selected piece's kind, called with its
      square and the callbacks; no moves without a selection or on an empty square. */
  function PossibleMoves(s: GameState): seq<Square> {
    if s.selectedSquare.None? || s.selectedSquare.value !in s.pieces then []
    else
      var sq := s.selectedSquare.value;
      var piece := s.pieces[sq];
      var board := s.pieces;
      match piece.kind
      case Pawn => PawnMoves(piece, sq.row, sq.col, EmptyTest(board), OpponentTest(s), s.enPassantTarget)
      case Knight => KnightMoves(piece, sq.row, sq.col, FriendlyTest(board))
      case Bishop => BishopMoves(piece, sq.row, sq.col, FriendlyTest(board), EmptyTest(board), OpponentTest(s))
      case Rook => RookMoves(piece, sq.row, sq.col, FriendlyTest(board), EmptyTest(board), OpponentTest(s))
      case Queen => QueenMoves(piece, sq.row, sq.col, FriendlyTest(board), EmptyTest(board), OpponentTest(s))
      case King => KingMoves(piece, sq.row, sq.col, FriendlyTest(board), EmptyTest(board), PieceLookup(board),
                             AttackTest(board), s.pieceHasMoved, s.castlingRights)
  }

  /** A state with a possible move has a selected piece. */
  lemma PossibleMovesSelected(s: GameState)
    requires PossibleMoves(s) != []
    ensures s.selectedSquare.Some? && s.selectedSquare.value in s.pieces
  {
  }

  // ============================================================ square click

  function Abs(x: int): nat {
    if x < 0 then -x else x
  }

  /** A pawn landing on the en-passant target. */
  predicate IsEnPassantCapture(s: GameState, moving: Piece, to: Square) {
    moving.kind == Pawn && s.enPassantTarget == Some(to)
  }

  /** The square of the pawn an en-passant capture onto `to` removes. */
  function EnPassantVictim(moving: Piece, to: Square): Square {
    Square(to.row + (if moving == Piece(White, Pawn) then 1 else -1), to.col)
  }

  /** A king moving two columns. */
  predicate IsCastling(moving: Piece, from: Square, to: Square) {
    moving.kind == King && Abs(from.col - to.col) == 2
  }

  function RookFrom(row: int, kingSide: bool): Square {
    Square(row, if kingSide then 8 else 1)
  }

  function RookTo(row: int, kingSide: bool): Square {
    Square(row, if kingSide then 6 else 4)
  }

  /** The rook hop of a castling move on row `row`: whatever stands on the rook's
      square goes to the square beside the king's destination. The source assigns
      `undefined` when the rook square is empty, which every reader takes for an
      empty square, so that square is cleared here. */
  function RookHop(board: Board, row: int, kingSide: bool): Board {
    var rookFrom, rookTo := RookFrom(row, kingSide), RookTo(row, kingSide);
    (if rookFrom in board then board[rookTo := board[rookFrom]] else board - {rookTo}) - {rookFrom}
  }

  /** The board once an en-passant capture onto `to` has removed its victim. */
  function AfterEnPassant(s: GameState, moving: Piece, to: Square): Board {
    var victim := EnPassantVictim(moving, to);
    if IsEnPassantCapture(s, moving, to) && victim in s.pieces then s.pieces - {victim} else s.pieces
  }

  /** The board of a committed move, built as the source builds `newPieces`: remove
      the en-passant victim, hop the castling rook, put the moving piece on the
      destination and clear the source square. */
  function CommitBoard(s: GameState, from: Square, to: Square, moving: Piece): Board {
    var afterEnPassant := AfterEnPassant(s, moving, to);
    var afterCastling :=
      if IsCastling(moving, from, to) then RookHop(afterEnPassant, to.row, to.col > from.col) else afterEnPassant;
    afterCastling[to := moving] - {from}
  }

  /** A captured piece goes to capturedByWhite when its code is white, else to capturedByBlack. */
  function AddCaptured(lists: (seq<Piece>, seq<Piece>), p: Piece): (seq<Piece>, seq<Piece>) {
    if Code(p) <= WHITE_PAWN then (lists.0 + [p], lists.1) else (lists.0, lists.1 + [p])
  }

  /** The captured lists after a committed move: the piece on the destination, then the
      en-passant victim. */
  function CommitCaptures(s: GameState, to: Square, moving: Piece): (seq<Piece>, seq<Piece>) {
    var clicked := GetPiece(s.pieces, to.row, to.col);
    var lists := (s.capturedByWhite, s.capturedByBlack);
    var afterRegular := if clicked.Some? then AddCaptured(lists, clicked.value) else lists;
    var victim := EnPassantVictim(moving, to);
    if IsEnPassantCapture(s, moving, to) && victim in s.pieces then AddCaptured(afterRegular, s.pieces[victim])
    else afterRegular
  }

  /** The castling rights after `moving` leaves `from`: a king clears both rights of its
      colour, a rook leaving a corner of its home rank clears the right on that side. */
  function CommitRights(rights: CastlingRights, from: Square, moving: Piece): CastlingRights {
    if moving == Piece(White, King) then rights.(white := Rights(false, false))
    else if moving == Piece(Black, King) then rights.(black := Rights(false, false))
    else if moving == Piece(White, Rook) then
      rights.(white := Rights(rights.white.kingSide && from != Square(8, 8),
                              rights.white.queenSide && from != Square(8, 1)))
    else if moving == Piece(Black, Rook) then
      rights.(black := Rights(rights.black.kingSide && from != Square(1, 8),
                              rights.black.queenSide && from != Square(1, 1)))
    else rights
  }

  /** The en-passant target after a committed move: the square a pawn moving two rows
      passes over in its direction of travel, otherwise none. */
  function CommitTarget(from: Square, to: Square, moving: Piece): Option<Square> {
    if moving.kind == Pawn && Abs(from.row - to.row) == 2 then
      Some(Square(from.row + (if moving == Piece(White, Pawn) then -1 else 1), from.col))
    else None
  }

  /** The commit branch of handleSquareClick: the selected piece moves to (row, col). The
      halfmove clock resets on a pawn move or a capture, where the capture test reads
      the en-passant target after it has been recomputed. */
  function Commit(s: GameState, row: int, col: int): GameState
    requires s.selectedSquare.Some? && s.selectedSquare.value in s.pieces
  {
    var from := s.selectedSquare.value;
    var to := Square(row, col);
    var moving := s.pieces[from];
    var clicked := GetPiece(s.pieces, row, col);
    var board := CommitBoard(s, from, to, moving);
    var captures := CommitCaptures(s, to, moving);
    var target := CommitTarget(from, to, moving);
    var isPawnMove := moving.kind == Pawn;
    var isCapture := clicked.Some? || target == Some(to);
    GameState(
      board,
      None,
      Opponent(s.currentPlayer),
      captures.0,
      captures.1,
      target,
      CommitRights(s.castlingRights, from, moving),
      s.pieceHasMoved + {from, to},
      InCheck(KingInCheck(board, White), KingInCheck(board, Black)),
      if isPawnMove || isCapture then 0 else s.halfmoveClock + 1,
      if s.currentPlayer == White then s.fullmoveNumber else s.fullmoveNumber + 1)
  }

  /** The selection branch: a click on a piece of the side not to move is ignored, a
      click on an own piece toggles its selection, a click on an empty square clears it. */
  function Select(s: GameState, row: int, col: int): GameState {
    var clicked := GetPiece(s.pieces, row, col);
    var isWhiteTurn := s.currentPlayer == White;
    if clicked.Some? && isWhiteTurn != (Code(clicked.value) <= WHITE_PAWN) then s
    else if clicked.Some? then
      s.(selectedSquare := if s.selectedSquare == Some(Square(row, col)) then None else Some(Square(row, col)))
    else s.(selectedSquare := None)
  }

  /** handleSquareClick(row, col). */
  function Click(s: GameState, row: int, col: int): GameState {
    if s.selectedSquare.Some? && Square(row, col) in PossibleMoves(s) then
      PossibleMovesSelected(s);
      Commit(s, row, col)
    else Select(s, row, col)
  }

  // ===================================================================== FEN

  /** The pieceHasMoved entries loadFen sets from the castling rights: the king's home
      square when either right of its colour is missing, a rook's home corner when the
      right on its side is missing. */
  function MovedFromRights(rights: CastlingRights): set<Square> {
    (if !rights.white.kingSide || !rights.white.queenSide then {Square(8, 5)} else {}) +
    (if !rights.white.kingSide then {Square(8, 8)} else {}) +
    (if !rights.white.queenSide then {Square(8, 1)} else {}) +
    (if !rights.black.kingSide || !rights.black.queenSide then {Square(1, 5)} else {}) +
    (if !rights.black.kingSide then {Square(1, 8)} else {}) +
    (if !rights.black.queenSide then {Square(1, 1)} else {})
  }

  /** The state loadFen installs from a parsed position. */
  function LoadedState(p: Position): GameState {
    GameState(
      p.pieces, None, p.currentPlayer, [], [], p.enPassantTarget, p.castlingRights,
      MovedFromRights(p.castlingRights),
      InCheck(KingInCheck(p.pieces, White), KingInCheck(p.pieces, Black)),
      p.halfmoveClock, p.fullmoveNumber)
  }

  /** loadFen(fen): the new state and the returned flag; a FEN that parseFen rejects
      leaves the state as it was. */
  function LoadFen(s: GameState, fen: string): (GameState, bool) {
    match Parse(fen)
    case Err(_) => (s, false)
    case Ok(p) => (LoadedState(p), true)
  }

  /** The record getCurrentFen hands to generateFen. */
  function CurrentPosition(s: GameState): Position {
    Position(s.pieces, s.currentPlayer, s.castlingRights, s.enPassantTarget, s.halfmoveClock, s.fullmoveNumber)
  }
}
