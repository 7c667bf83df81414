/** The state object of useChessEngine (src/utils/chessEngine.js): the refs declared at
    the top of the hook become fields of class Engine, the loop queries isSquareAttacked
    and isKingInCheck become methods that read them, and handleSquareClick, loadFen,
    resetGame and getCurrentFen become methods proved to follow the functions of
    EngineState step for step. */
module ChessEngine {
  import opened Wrappers
  import opened ChessUtils
  import opened MoveGenerator
  import opened FenUtils
  import opened EngineState
  import opened EngineProperties

  // ------------------------------------------------ loop steps of the attack scan

  lemma PawnAttackStep(colOffsets: seq<int>, i: nat, board: Board, row: int, col: int, side: Color)
    requires i < |colOffsets|
    ensures PawnAttack(colOffsets[..i + 1], board, row, col, side) <==>
            PawnAttack(colOffsets[..i], board, row, col, side) ||
            AttackerAt(board, row + PawnAttackDirection(side), col + colOffsets[i], Piece(side, Pawn))
  {
    var pre, next := colOffsets[..i], colOffsets[..i + 1];
    assert forall j :: 0 <= j < i ==> next[j] == pre[j];
    if AttackerAt(board, row + PawnAttackDirection(side), col + colOffsets[i], Piece(side, Pawn)) {
      assert next[i] == colOffsets[i];
    }
  }

  lemma LeaperAttackStep(offsets: seq<Offset>, i: nat, board: Board, row: int, col: int, attacker: Piece)
    requires i < |offsets|
    ensures LeaperAttack(offsets[..i + 1], board, row, col, attacker) <==>
            LeaperAttack(offsets[..i], board, row, col, attacker) ||
            AttackerAt(board, row + offsets[i].0, col + offsets[i].1, attacker)
  {
    var pre, next := offsets[..i], offsets[..i + 1];
    assert forall j :: 0 <= j < i ==> next[j] == pre[j];
    if AttackerAt(board, row + offsets[i].0, col + offsets[i].1, attacker) {
      assert next[i] == offsets[i];
    }
  }

  lemma SliderAttackStep(dirs: seq<Offset>, i: nat, board: Board, row: int, col: int, attacker: Piece, queen: Piece)
    requires AllDirections(dirs) && i < |dirs|
    ensures AllDirections(dirs[..i]) && AllDirections(dirs[..i + 1]) && IsDirection(dirs[i])
    ensures SliderAttack(dirs[..i + 1], board, row, col, attacker, queen) <==>
            SliderAttack(dirs[..i], board, row, col, attacker, queen) ||
            RayAttack(board, row, col, dirs[i], attacker, queen)
  {
    var pre, next := dirs[..i], dirs[..i + 1];
    assert forall j :: 0 <= j < i ==> next[j] == pre[j];
    if RayAttack(board, row, col, dirs[i], attacker, queen) {
      assert next[i] == dirs[i];
    }
  }

  lemma EdgeStep(row: int, col: int, dr: int, dc: int)
    requires IsDirection((dr, dc)) && IsWithinBoard(row, col)
    ensures EdgeDistance(row + dr, col + dc, dr, dc) < EdgeDistance(row, col, dr, dc)
  {
  }

  /** One row of the king scan: the column the inner loop breaks at, if any. */
  lemma KingScanStep(board: Board, row: int, king: Piece)
    requires row >= 1
    ensures KingScan(board, row, king) ==
            match FirstKingColumn(board, row, 1, king)
            case Some(c) => Some(Square(row, c))
            case None => KingScan(board, row - 1, king)
  {
  }

  /** The refs of useChessEngine. Valid() is the invariant every method keeps. */
  class Engine {
    var pieces: Board
    var selectedSquare: Option<Square>
    var currentPlayer: Color
    var capturedByWhite: seq<Piece>
    var capturedByBlack: seq<Piece>
    var enPassantTarget: Option<Square>
    var castlingRights: CastlingRights
    var pieceHasMoved: set<Square>
    var inCheck: InCheck
    var halfmoveClock: int
    var fullmoveNumber: int

    /** The fields as one value. */
    function State(): GameState
      reads this
    {
      GameState(pieces, selectedSquare, currentPlayer, capturedByWhite, capturedByBlack, enPassantTarget,
                castlingRights, pieceHasMoved, inCheck, halfmoveClock, fullmoveNumber)
    }

    ghost predicate Valid()
      reads this
    {
      ValidState(State())
    }

    /** The initial values of the refs: initialPieces, white to move, every right. */
    constructor ()
      ensures State() == InitialState()
      ensures Valid()
    {
      pieces := InitialPieces;
      selectedSquare := None;
      currentPlayer := White;
      capturedByWhite := [];
      capturedByBlack := [];
      enPassantTarget := None;
      castlingRights := CastlingRights(Rights(true, true), Rights(true, true));
      pieceHasMoved := {};
      inCheck := InCheck(false, false);
      halfmoveClock := 0;
      fullmoveNumber := 1;
      InitialPiecesSquares();
    }

    // ------------------------------------------------------------ isSquareAttacked

    /** isSquareAttacked(row, col, byWhite): the five scans in the source's order, each
        returning true at its first attacker. */
    method IsSquareAttacked(row: int, col: int, side: Color) returns (attacked: bool)
      ensures attacked == SquareAttacked(pieces, row, col, side)
    {
      // Pawns, looked for one row towards PawnAttackDirection(side)
      attacked := ScanPawnAttack(PAWN_CAPTURE_OFFSETS, row, col, side);
      if attacked { return; }
      attacked := ScanLeaperAttack(KNIGHT_OFFSETS, row, col, Piece(side, Knight));
      if attacked { return; }
      attacked := ScanSliderAttack(BISHOP_DIRECTIONS, row, col, Piece(side, Bishop), Piece(side, Queen));
      if attacked { return; }
      attacked := ScanSliderAttack(ROOK_DIRECTIONS, row, col, Piece(side, Rook), Piece(side, Queen));
      if attacked { return; }
      attacked := ScanLeaperAttack(KING_DIRECTIONS, row, col, Piece(side, King));
    }

    /** The pawn loop, over the column offsets -1 and 1. */
    method ScanPawnAttack(colOffsets: seq<int>, row: int, col: int, side: Color) returns (found: bool)
      ensures found == PawnAttack(colOffsets, pieces, row, col, side)
    {
      var pawnDirection := if side == White then -1 else 1;
      for i := 0 to |colOffsets|
        invariant !PawnAttack(colOffsets[..i], pieces, row, col, side)
      {
        PawnAttackStep(colOffsets, i, pieces, row, col, side);
        var attackRow := row + pawnDirection;
        var attackCol := col + colOffsets[i];
        if IsWithinBoard(attackRow, attackCol) {
          var piece := GetPiece(pieces, attackRow, attackCol);
          if piece == Some(Piece(side, Pawn)) {
            return true;
          }
        }
      }
      assert colOffsets[..|colOffsets|] == colOffsets;
      return false;
    }

    /** The knight loop and the king loop: one square per offset. */
    method ScanLeaperAttack(offsets: seq<Offset>, row: int, col: int, attacker: Piece) returns (found: bool)
      ensures found == LeaperAttack(offsets, pieces, row, col, attacker)
    {
      for i := 0 to |offsets|
        invariant !LeaperAttack(offsets[..i], pieces, row, col, attacker)
      {
        LeaperAttackStep(offsets, i, pieces, row, col, attacker);
        var (rowOffset, colOffset) := offsets[i];
        var attackRow := row + rowOffset;
        var attackCol := col + colOffset;
        if IsWithinBoard(attackRow, attackCol) {
          var piece := GetPiece(pieces, attackRow, attackCol);
          if piece == Some(attacker) {
            return true;
          }
        }
      }
      assert offsets[..|offsets|] == offsets;
      return false;
    }

    /** The diagonal loop and the straight loop: one ray per direction, an attack when
        the ray's first piece is the slider or the queen. */
    method ScanSliderAttack(dirs: seq<Offset>, row: int, col: int, attacker: Piece, queen: Piece)
      returns (found: bool)
      requires AllDirections(dirs)
      ensures found == SliderAttack(dirs, pieces, row, col, attacker, queen)
    {
      for i := 0 to |dirs|
        invariant AllDirections(dirs[..i])
        invariant !SliderAttack(dirs[..i], pieces, row, col, attacker, queen)
      {
        SliderAttackStep(dirs, i, pieces, row, col, attacker, queen);
        var (rowDir, colDir) := dirs[i];
        var piece := FirstPieceAlong(row, col, rowDir, colDir);
        if piece == Some(attacker) || piece == Some(queen) {
          return true;
        }
      }
      assert dirs[..|dirs|] == dirs;
      return false;
    }

    /** The inner `while (true)` loop of one ray: walk until the edge or the first piece,
        which blocks the ray whatever it is. The source forms each square as
        `row + rowDir * distance`; here the square advances by one step instead. */
    method FirstPieceAlong(row: int, col: int, rowDir: int, colDir: int) returns (first: Option<Piece>)
      requires IsDirection((rowDir, colDir))
      ensures first == FirstPiece(pieces, row + rowDir, col + colDir, rowDir, colDir)
    {
      var attackRow, attackCol := row + rowDir, col + colDir;
      while true
        invariant FirstPiece(pieces, attackRow, attackCol, rowDir, colDir) ==
                  FirstPiece(pieces, row + rowDir, col + colDir, rowDir, colDir)
        decreases EdgeDistance(attackRow, attackCol, rowDir, colDir)
      {
        if !IsWithinBoard(attackRow, attackCol) {
          return None;
        }
        var piece := GetPiece(pieces, attackRow, attackCol);
        if piece.Some? {
          return piece;
        }
        EdgeStep(attackRow, attackCol, rowDir, colDir);
        attackRow, attackCol := attackRow + rowDir, attackCol + colDir;
      }
    }

    // --------------------------------------------------------------- isKingInCheck

    /** isKingInCheck(isWhiteKing): scan rows 1 to 8 for the king, keeping the match of
        the last row that has one, then test that square against the other side. */
    method IsKingInCheck(c: Color) returns (check: bool)
      ensures check == KingInCheck(pieces, c)
    {
      var king := Piece(c, King);
      var kingRow, kingCol := 0, 0;
      for row := 1 to 9
        invariant (if kingRow == 0 then None else Some(Square(kingRow, kingCol))) == KingScan(pieces, row - 1, king)
        invariant 0 <= kingRow < row
      {
        KingScanStep(pieces, row, king);
        var found := FindKingInRow(row, king);
        if found != 0 {
          kingRow, kingCol := row, found;
        }
      }
      if kingRow == 0 {
        return false; // King not found
      }
      check := IsSquareAttacked(kingRow, kingCol, Opponent(c));
    }

    /** The inner loop over the columns of one row; `break` leaves only this loop. The
        result is 0 when the row holds no such king. */
    method FindKingInRow(row: int, king: Piece) returns (kingCol: int)
      ensures kingCol == match FirstKingColumn(pieces, row, 1, king) case Some(c) => c case None => 0
    {
      for col := 1 to 9
        invariant FirstKingColumn(pieces, row, col, king) == FirstKingColumn(pieces, row, 1, king)
      {
        var piece := GetPiece(pieces, row, col);
        if piece == Some(king) {
          return col;
        }
      }
      return 0;
    }

    // ----------------------------------------------------------- handleSquareClick

    /** handleSquareClick(row, col): commit a move onto a possible destination of the
        selected piece, otherwise update the selection. */
    method HandleSquareClick(row: int, col: int)
      requires Valid()
      modifies this
      ensures State() == Click(old(State()), row, col)
      ensures Valid()
    {
      ClickValid(State(), row, col);
      // The computed possibleMoves runs the Get*Moves generators; each of those methods is
      // proved equal to its specification function, so membership is tested on the function.
      if selectedSquare.Some? && Square(row, col) in PossibleMoves(State()) {
        PossibleMovesSelected(State());
        MovePiece(row, col);
        return;
      }
      var clickedPiece := GetPiece(pieces, row, col);
      var isWhiteTurn := currentPlayer == White;
      // Only allow selection of current player's pieces
      if clickedPiece.Some? {
        var isWhitePieceSelected := Code(clickedPiece.value) <= WHITE_PAWN;
        if (isWhiteTurn && !isWhitePieceSelected) || (!isWhiteTurn && isWhitePieceSelected) {
          return;
        }
      }
      if clickedPiece.Some? {
        if selectedSquare == Some(Square(row, col)) {
          selectedSquare := None;
        } else {
          selectedSquare := Some(Square(row, col));
        }
      } else {
        selectedSquare := None;
      }
    }

    /** The commit branch of handleSquareClick, in the source's order of steps. */
    method MovePiece(row: int, col: int)
      requires selectedSquare.Some? && selectedSquare.value in pieces
      modifies this
      ensures State() == Commit(old(State()), row, col)
    {
      ghost var s := State();
      var position := Square(row, col);
      var clickedPiece := GetPiece(pieces, row, col);
      var newPieces := pieces;
      var from := selectedSquare.value;
      var movingPiece := newPieces[from];

      MarkMoved(from, position);

      newPieces := RecordCaptures(position, movingPiece);
      assert newPieces == AfterEnPassant(s, movingPiece, position);

      // Castling: the king moved two columns, so the rook hops over it
      if movingPiece.kind == King && Abs(from.col - col) == 2 {
        var isKingSideCastle := col > from.col;
        var rookFromPos := Square(row, if isKingSideCastle then 8 else 1);
        var rookToPos := Square(row, if isKingSideCastle then 6 else 4);
        if rookFromPos in newPieces {
          newPieces := newPieces[rookToPos := newPieces[rookFromPos]];
        } else {
          newPieces := newPieces - {rookToPos};
        }
        newPieces := newPieces - {rookFromPos};
      }

      UpdateCastlingRights(from, movingPiece);

      SetEnPassantTarget(from, position, movingPiece);

      // Move the piece and clear its old square
      newPieces := newPieces[position := movingPiece];
      newPieces := newPieces - {from};
      assert newPieces == CommitBoard(s, from, position, movingPiece);
      PlacePieces(newPieces);

      UpdateCheck();

      // The capture test reads the target as just recomputed
      var isPawnMove := movingPiece.kind == Pawn;
      var isCapture := clickedPiece.Some? || enPassantTarget == Some(position);
      AdvanceTurn(isPawnMove || isCapture);
    }

    /** Track that the piece has moved (for castling rights): both the square it
        leaves and the square it lands on. */
    method MarkMoved(from: Square, position: Square)
      modifies this
      ensures State() == old(State()).(pieceHasMoved := old(pieceHasMoved) + {from, position})
    {
      pieceHasMoved := pieceHasMoved + {from};
      pieceHasMoved := pieceHasMoved + {position};
    }

    /** Reset the en-passant target, then set it after a two-row pawn move. */
    method SetEnPassantTarget(from: Square, position: Square, movingPiece: Piece)
      modifies this
      ensures State() == old(State()).(enPassantTarget := CommitTarget(from, position, movingPiece))
    {
      enPassantTarget := None;
      if movingPiece.kind == Pawn && Abs(from.row - position.row) == 2 {
        var direction := if movingPiece == Piece(White, Pawn) then -1 else 1;
        enPassantTarget := Some(Square(from.row + direction, from.col));
      }
    }

    /** Install the new board and deselect. */
    method PlacePieces(newPieces: Board)
      modifies this
      ensures State() == old(State()).(pieces := newPieces, selectedSquare := None)
    {
      pieces := newPieces;
      selectedSquare := None;
    }

    /** Recompute both check flags on the current board. */
    method UpdateCheck()
      modifies this
      ensures State() == old(State()).(inCheck := InCheck(KingInCheck(pieces, White), KingInCheck(pieces, Black)))
    {
      var whiteInCheck := IsKingInCheck(White);
      var blackInCheck := IsKingInCheck(Black);
      inCheck := InCheck(whiteInCheck, blackInCheck);
    }

    /** The counters and the turn after a move: the halfmove clock resets or counts
        up, the other side is to move, and the fullmove number grows after black. */
    method AdvanceTurn(resetClock: bool)
      modifies this
      ensures State() == old(State()).(
                halfmoveClock := if resetClock then 0 else old(halfmoveClock) + 1,
                currentPlayer := Opponent(old(currentPlayer)),
                fullmoveNumber := if old(currentPlayer) == White then old(fullmoveNumber) else old(fullmoveNumber) + 1)
    {
      var isWhiteTurn := currentPlayer == White;
      if resetClock {
        halfmoveClock := 0;
      } else {
        halfmoveClock := halfmoveClock + 1;
      }
      currentPlayer := if isWhiteTurn then Black else White;
      if !isWhiteTurn {
        fullmoveNumber := fullmoveNumber + 1;
      }
    }

    /** The capture steps of a committed move: the piece on the destination, then the
        en-passant victim, go to the captured lists, and the victim leaves the board
        copy that is returned. */
    method RecordCaptures(position: Square, movingPiece: Piece) returns (newPieces: Board)
      modifies this
      ensures newPieces == AfterEnPassant(old(State()), movingPiece, position)
      ensures State() == old(State()).(capturedByWhite := CommitCaptures(old(State()), position, movingPiece).0,
                                       capturedByBlack := CommitCaptures(old(State()), position, movingPiece).1)
    {
      newPieces := pieces;
      var clickedPiece := GetPiece(pieces, position.row, position.col);
      // Regular capture
      if clickedPiece.Some? {
        if Code(clickedPiece.value) <= WHITE_PAWN {
          capturedByWhite := capturedByWhite + [clickedPiece.value];
        } else {
          capturedByBlack := capturedByBlack + [clickedPiece.value];
        }
      }
      // En passant capture
      if movingPiece.kind == Pawn && enPassantTarget == Some(position) {
        var direction := if movingPiece == Piece(White, Pawn) then 1 else -1;
        var capturedPawnPos := Square(position.row + direction, position.col);
        if capturedPawnPos in newPieces {
          var capturedPawn := newPieces[capturedPawnPos];
          if Code(capturedPawn) <= WHITE_PAWN {
            capturedByWhite := capturedByWhite + [capturedPawn];
          } else {
            capturedByBlack := capturedByBlack + [capturedPawn];
          }
          newPieces := newPieces - {capturedPawnPos};
        }
      }
    }

    /** The castling-rights step of a committed move: a king clears both rights of its
        colour, a rook leaving a1, h1, a8 or h8 the right on its side. */
    method UpdateCastlingRights(from: Square, movingPiece: Piece)
      modifies this
      ensures State() == old(State()).(castlingRights := CommitRights(old(castlingRights), from, movingPiece))
    {
      if movingPiece == Piece(White, King) {
        castlingRights := castlingRights.(white := castlingRights.white.(kingSide := false));
        castlingRights := castlingRights.(white := castlingRights.white.(queenSide := false));
      } else if movingPiece == Piece(Black, King) {
        castlingRights := castlingRights.(black := castlingRights.black.(kingSide := false));
        castlingRights := castlingRights.(black := castlingRights.black.(queenSide := false));
      } else if movingPiece == Piece(White, Rook) {
        if from == Square(8, 1) { castlingRights := castlingRights.(white := castlingRights.white.(queenSide := false)); }
        if from == Square(8, 8) { castlingRights := castlingRights.(white := castlingRights.white.(kingSide := false)); }
      } else if movingPiece == Piece(Black, Rook) {
        if from == Square(1, 1) { castlingRights := castlingRights.(black := castlingRights.black.(queenSide := false)); }
        if from == Square(1, 8) { castlingRights := castlingRights.(black := castlingRights.black.(kingSide := false)); }
      }
    }

    // ------------------------------------------------------------------- FEN

    /** loadFen(fen): on a FEN parseFen rejects, return false and change nothing;
        otherwise install the parsed position, synthesise pieceHasMoved from the
        missing castling rights and recompute both check flags. */
    method LoadFen(fen: string) returns (ok: bool)
      requires Valid()
      modifies this
      ensures (State(), ok) == EngineState.LoadFen(old(State()), fen)
      ensures Valid()
    {
      ghost var s := State();
      var parsed := ParseFen(fen);
      if parsed.Err? {
        return false;
      }
      var position := parsed.value;
      LoadFenValid(s, fen);
      assert EngineState.LoadFen(s, fen) == (LoadedState(position), true);
      InstallPosition(position);
      UpdateCheck();
      return true;
    }

    /** The field writes of loadFen, in the source's order, before the check flags. */
    method InstallPosition(position: Position)
      modifies this
      ensures State() == old(State()).(
                pieces := position.pieces, selectedSquare := None, currentPlayer := position.currentPlayer,
                capturedByWhite := [], capturedByBlack := [], enPassantTarget := position.enPassantTarget,
                castlingRights := position.castlingRights, pieceHasMoved := MovedFromRights(position.castlingRights),
                halfmoveClock := position.halfmoveClock, fullmoveNumber := position.fullmoveNumber)
    {
      InstallBoard(position);
      InstallCounters(position);
    }

    method InstallBoard(position: Position)
      modifies this
      ensures State() == old(State()).(
                pieces := position.pieces, selectedSquare := None, currentPlayer := position.currentPlayer,
                capturedByWhite := [], capturedByBlack := [])
    {
      pieces := position.pieces;
      selectedSquare := None;
      currentPlayer := position.currentPlayer;
      capturedByWhite := [];
      capturedByBlack := [];
    }

    method InstallCounters(position: Position)
      modifies this
      ensures State() == old(State()).(
                enPassantTarget := position.enPassantTarget, castlingRights := position.castlingRights,
                pieceHasMoved := MovedFromRights(position.castlingRights),
                halfmoveClock := position.halfmoveClock, fullmoveNumber := position.fullmoveNumber)
    {
      enPassantTarget := position.enPassantTarget;
      castlingRights := position.castlingRights;
      halfmoveClock := position.halfmoveClock;
      fullmoveNumber := position.fullmoveNumber;
      // Which pieces have moved, judged from the castling rights
      pieceHasMoved := MovedSquares(position.castlingRights);
    }

    /** The pieceHasMoved entries loadFen writes, judged from the castling rights. */
    static method MovedSquares(rights: CastlingRights) returns (moved: set<Square>)
      ensures moved == MovedFromRights(rights)
    {
      moved := {};
      if !rights.white.kingSide || !rights.white.queenSide { moved := moved + {Square(8, 5)}; }
      if !rights.white.kingSide { moved := moved + {Square(8, 8)}; }
      if !rights.white.queenSide { moved := moved + {Square(8, 1)}; }
      if !rights.black.kingSide || !rights.black.queenSide { moved := moved + {Square(1, 5)}; }
      if !rights.black.kingSide { moved := moved + {Square(1, 8)}; }
      if !rights.black.queenSide { moved := moved + {Square(1, 1)}; }
    }

    /** resetGame: load STARTING_FEN. */
    method ResetGame()
      requires Valid()
      modifies this
      ensures State() == EngineState.LoadFen(old(State()), STARTING_FEN).0
      ensures Valid()
    {
      var _ := LoadFen(STARTING_FEN);
    }

    /** getCurrentFen: generateFen of the current position record. */
    method GetCurrentFen() returns (fen: string)
      requires Valid()
      ensures fen == Generate(CurrentPosition(State()))
    {
      fen := GenerateFen(Position(pieces, currentPlayer, castlingRights, enPassantTarget,
                                  halfmoveClock, fullmoveNumber));
    }
  }
}
