/** Forsyth-Edwards Notation (section 16.1 of the PGN Standard): reading a FEN record
    into a position and writing a position back out (src/utils/fenUtils.js). */
module FenUtils {
  import opened Wrappers
  import opened ChessUtils
  import opened Text

  /** The standard starting position. */
  const STARTING_FEN: string := "rnbqkbnr/pppppppp/8/8/8/8/PPPPPPPP/RNBQKBNR w KQkq - 0 1"

  /** The record parseFen returns and generateFen reads. The source keys `pieces` by
      square name and holds the en-passant target as a square name; here both are board
      coordinates, which name the same squares (ChessUtils.ToAlgebraicInjective). */
  datatype Position = Position(
    pieces: map<Square, Piece>,
    currentPlayer: Color,
    castlingRights: CastlingRights,
    enPassantTarget: Option<Square>,
    halfmoveClock: int,
    fullmoveNumber: int)

  /** The errors parseFen throws, one per message. */
  datatype FenError =
    | WrongFieldCount
    | WrongRankCount
    | UnknownCharacter(c: char)
    | BadRankWidth(rank: int)
    | BadActiveColor
    | BadCastling
    | BadEnPassant
    | BadHalfmoveClock
    | BadFullmoveNumber

  // ------------------------------------------------------------- piece letters

  /** The letters of the class /[pnbrqkPNBRQK]/. */
  const PIECE_LETTERS: string := "pnbrqkPNBRQK"

  /** FEN_TO_PIECE: lower case is black, upper case white. */
  function FenToPiece(c: char): (p: Option<Piece>)
    ensures p.Some? <==> c in PIECE_LETTERS
  {
    if c == 'p' then Some(Piece(Black, Pawn))
    else if c == 'n' then Some(Piece(Black, Knight))
    else if c == 'b' then Some(Piece(Black, Bishop))
    else if c == 'r' then Some(Piece(Black, Rook))
    else if c == 'q' then Some(Piece(Black, Queen))
    else if c == 'k' then Some(Piece(Black, King))
    else if c == 'P' then Some(Piece(White, Pawn))
    else if c == 'N' then Some(Piece(White, Knight))
    else if c == 'B' then Some(Piece(White, Bishop))
    else if c == 'R' then Some(Piece(White, Rook))
    else if c == 'Q' then Some(Piece(White, Queen))
    else if c == 'K' then Some(Piece(White, King))
    else None
  }

  /** PIECE_TO_FEN, the inverse table of FEN_TO_PIECE. */
  function PieceToFen(p: Piece): (c: char)
    ensures c in PIECE_LETTERS
    ensures FenToPiece(c) == Some(p)
    ensures ('A' <= c <= 'Z') <==> p.color == White
  {
    match p
    case Piece(Black, Pawn) => 'p'
    case Piece(Black, Knight) => 'n'
    case Piece(Black, Bishop) => 'b'
    case Piece(Black, Rook) => 'r'
    case Piece(Black, Queen) => 'q'
    case Piece(Black, King) => 'k'
    case Piece(White, Pawn) => 'P'
    case Piece(White, Knight) => 'N'
    case Piece(White, Bishop) => 'B'
    case Piece(White, Rook) => 'R'
    case Piece(White, Queen) => 'Q'
    case Piece(White, King) => 'K'
  }

  /** The two tables are inverse to each other in the other direction too. */
  lemma FenToPieceToFen(c: char)
    requires c in PIECE_LETTERS
    ensures PieceToFen(FenToPiece(c).value) == c
  {
  }

  // ---------------------------------------------------------------- placement

  /** A character of the class /[1-8]/. */
  predicate IsEmptyRun(c: char) {
    '1' <= c <= '8'
  }

  /** One rank of the placement field, scanned from column index `col` (0 is file 'a')
      with the pieces found so far; the result is the column count reached and the
      pieces. A digit skips that many columns; a piece letter stores its piece on the
      square of rank 8 - row and the current file, and advances one column; any other
      character is an error. */
  function ScanRank(s: string, row: int, col: int, pieces: map<Square, Piece>)
    : Result<(int, map<Square, Piece>), FenError>
    decreases |s|
  {
    if s == [] then Ok((col, pieces))
    else if IsEmptyRun(s[0]) then ScanRank(s[1..], row, col + DigitValue(s[0]), pieces)
    else if s[0] in PIECE_LETTERS then
      ScanRank(s[1..], row, col + 1, pieces[Square(row + 1, col + 1) := FenToPiece(s[0]).value])
    else Err(UnknownCharacter(s[0]))
  }

  /** The ranks from index `row` on; each must reach exactly 8 columns. */
  function ScanRanks(rows: seq<string>, row: nat, pieces: map<Square, Piece>): Result<map<Square, Piece>, FenError>
    requires |rows| == 8 && row <= 8
    decreases 8 - row
  {
    if row == 8 then Ok(pieces)
    else
      match ScanRank(rows[row], row, 0, pieces)
      case Err(e) => Err(e)
      case Ok((col, filled)) =>
        if col != 8 then Err(BadRankWidth(8 - row)) else ScanRanks(rows, row + 1, filled)
  }

  /** The piece placement field: exactly 8 ranks separated by '/'. */
  function ParsePlacement(field: string): Result<map<Square, Piece>, FenError> {
    var rows := Split(field, '/');
    if |rows| != 8 then Err(WrongRankCount) else ScanRanks(rows, 0, map[])
  }

  // ------------------------------------------------------------ castling field

  /** One element of a regular expression made of letters, each one either required
      (`K`) or optional (`K?`). */
  datatype Item = Item(letter: char, optional: bool)

  /** Whether all of `s` matches the sequence of items. */
  predicate MatchItems(s: string, items: seq<Item>)
    decreases |items|
  {
    if items == [] then s == []
    else (s != [] && s[0] == items[0].letter && MatchItems(s[1..], items[1..])) ||
         (items[0].optional && MatchItems(s, items[1..]))
  }

  /** The alternatives KQ?k?q?, K?Qk?q?, K?Q?kq? and K?Q?k?q of the castling pattern. */
  const CASTLING_ALTERNATIVES: seq<seq<Item>> := [
    [Item('K', false), Item('Q', true), Item('k', true), Item('q', true)],
    [Item('K', true), Item('Q', false), Item('k', true), Item('q', true)],
    [Item('K', true), Item('Q', true), Item('k', false), Item('q', true)],
    [Item('K', true), Item('Q', true), Item('k', true), Item('q', false)]
  ]

  /** /^(KQ?k?q?|K?Qk?q?|K?Q?kq?|K?Q?k?q|-)$/.test(s) */
  predicate CastlingPattern(s: string) {
    MatchItems(s, CASTLING_ALTERNATIVES[0]) || MatchItems(s, CASTLING_ALTERNATIVES[1]) ||
    MatchItems(s, CASTLING_ALTERNATIVES[2]) || MatchItems(s, CASTLING_ALTERNATIVES[3]) || s == "-"
  }

  /** Each right is the presence of its letter. */
  function ParseCastling(castling: string): CastlingRights {
    CastlingRights(Rights('K' in castling, 'Q' in castling), Rights('k' in castling, 'q' in castling))
  }

  // -------------------------------------------------------- en-passant field

  /** /^[a-h][36]$/.test(s) */
  predicate EnPassantPattern(s: string) {
    |s| == 2 && 'a' <= s[0] <= 'h' && (s[1] == '3' || s[1] == '6')
  }

  // -------------------------------------------------------------------- parse

  /** parseFen: Ok with the position record, or Err with the first check that fails,
      in the order the source makes them. */
  function Parse(fen: string): Result<Position, FenError> {
    var parts := Split(Trim(fen), ' ');
    if |parts| != 6 then Err(WrongFieldCount)
    else
      match ParsePlacement(parts[0])
      case Err(e) => Err(e)
      case Ok(pieces) => ParseState(pieces, parts[1], parts[2], parts[3], parts[4], parts[5])
  }

  /** The checks of parseFen after the piece placement, on the other five fields. */
  function ParseState(pieces: map<Square, Piece>, activeColor: string, castling: string, enPassant: string,
                      halfmoveClock: string, fullmoveNumber: string): Result<Position, FenError> {
    if activeColor != "w" && activeColor != "b" then Err(BadActiveColor)
    else if !CastlingPattern(castling) then Err(BadCastling)
    else if enPassant != "-" && !EnPassantPattern(enPassant) then Err(BadEnPassant)
    else
      var halfmoves := ParseInt(halfmoveClock);
      if halfmoves.None? || halfmoves.value < 0 then Err(BadHalfmoveClock)
      else
        var fullmoves := ParseInt(fullmoveNumber);
        if fullmoves.None? || fullmoves.value < 1 then Err(BadFullmoveNumber)
        else
          Ok(Position(
            pieces,
            if activeColor == "w" then White else Black,
            ParseCastling(castling),
            if enPassant == "-" then None else Some(FromAlgebraic(enPassant)),
            halfmoves.value,
            fullmoves.value))
  }

  method ParseFen(fen: string) returns (result: Result<Position, FenError>)
    ensures result == Parse(fen)
  {
    var parts := Split(Trim(fen), ' ');
    if |parts| != 6 {
      return Err(WrongFieldCount);
    }
    var piecePlacement, activeColor, castling, enPassant, halfmoveClock, fullmoveNumber :=
      parts[0], parts[1], parts[2], parts[3], parts[4], parts[5];

    // Parse piece placement
    var placement := ParsePiecePlacement(piecePlacement);
    if placement.Err? {
      return Err(placement.error);
    }
    result := ParseFields(placement.value, activeColor, castling, enPassant, halfmoveClock, fullmoveNumber);
  }

  /** The rest of parseFen, once the piece placement has been read. */
  method ParseFields(pieces: map<Square, Piece>, activeColor: string, castling: string, enPassant: string,
                     halfmoveClock: string, fullmoveNumber: string)
    returns (result: Result<Position, FenError>)
    ensures result == ParseState(pieces, activeColor, castling, enPassant, halfmoveClock, fullmoveNumber)
  {
    if activeColor != "w" && activeColor != "b" {
      return Err(BadActiveColor);
    }
    if !CastlingPattern(castling) {
      return Err(BadCastling);
    }
    if enPassant != "-" && !EnPassantPattern(enPassant) {
      return Err(BadEnPassant);
    }
    var halfmoves := ParseInt(halfmoveClock);
    if halfmoves.None? || halfmoves.value < 0 {
      return Err(BadHalfmoveClock);
    }
    var fullmoves := ParseInt(fullmoveNumber);
    if fullmoves.None? || fullmoves.value < 1 {
      return Err(BadFullmoveNumber);
    }
    result := Ok(Position(
      pieces,
      if activeColor == "w" then White else Black,
      CastlingRights(Rights('K' in castling, 'Q' in castling), Rights('k' in castling, 'q' in castling)),
      if enPassant == "-" then None else Some(FromAlgebraic(enPassant)),
      halfmoves.value,
      fullmoves.value));
  }


  /** The placement part of parseFen: split into ranks, then the loop over the ranks. */
  method ParsePiecePlacement(piecePlacement: string) returns (result: Result<map<Square, Piece>, FenError>)
    ensures result == ParsePlacement(piecePlacement)
  {
    var pieces: map<Square, Piece> := map[];
    var rows := Split(piecePlacement, '/');
    if |rows| != 8 {
      return Err(WrongRankCount);
    }
    for row := 0 to 8
      invariant ScanRanks(rows, row, pieces) == ScanRanks(rows, 0, map[])
    {
      var scanned := ScanRankText(rows[row], row, pieces);
      if scanned.Err? {
        return Err(scanned.error);
      }
      var col := scanned.value.0;
      pieces := scanned.value.1;
      if col != 8 {
        return Err(BadRankWidth(8 - row));
      }
    }
    result := Ok(pieces);
  }

  /** The loop of parseFen over the characters of one rank, with the running `col`. */
  method ScanRankText(rank: string, row: int, pieces0: map<Square, Piece>)
    returns (result: Result<(int, map<Square, Piece>), FenError>)
    ensures result == ScanRank(rank, row, 0, pieces0)
  {
    var pieces := pieces0;
    var col := 0;
    for i := 0 to |rank|
      invariant ScanRank(rank[i..], row, col, pieces) == ScanRank(rank, row, 0, pieces0)
    {
      var ch := rank[i];
      assert rank[i..][1..] == rank[i + 1..];
      if IsEmptyRun(ch) {
        col := col + DigitValue(ch);
      } else if ch in PIECE_LETTERS {
        // The square is the file of `col` on rank 8 - row
        pieces := pieces[Square(row + 1, col + 1) := FenToPiece(ch).value];
        col := col + 1;
      } else {
        return Err(UnknownCharacter(ch));
      }
    }
    assert rank[|rank|..] == [];
    result := Ok((col, pieces));
  }

  // ----------------------------------------------------------------- generate

  /** The digit for a run of empty squares, or nothing when the run is empty. */
  function Flush(emptyCount: nat): string {
    if emptyCount > 0 then NatToString(emptyCount) else ""
  }

  /** The text of board row `row` from column index `col` (0 is file 'a') on, with
      `emptyCount` empty squares not yet written. */
  function RankRun(pieces: map<Square, Piece>, row: int, col: nat, emptyCount: nat): string
    decreases 8 - col
  {
    if col >= 8 then Flush(emptyCount)
    else if Square(row, col + 1) in pieces then
      Flush(emptyCount) + [PieceToFen(pieces[Square(row, col + 1)])] + RankRun(pieces, row, col + 1, 0)
    else RankRun(pieces, row, col + 1, emptyCount + 1)
  }

  /** The placement text of board row `row`, files a to h. */
  function RankText(pieces: map<Square, Piece>, row: int): string {
    RankRun(pieces, row, 0, 0)
  }

  /** The first `rows` ranks of the placement field, from rank 8 down, each but the
      eighth followed by '/'. */
  function PlacementUpTo(pieces: map<Square, Piece>, rows: nat): string
    requires rows <= 8
  {
    if rows == 0 then ""
    else PlacementUpTo(pieces, rows - 1) + RankText(pieces, rows) + (if rows < 8 then "/" else "")
  }

  function Placement(pieces: map<Square, Piece>): string {
    PlacementUpTo(pieces, 8)
  }

  function ActiveColorField(c: Color): string {
    if c == White then "w" else "b"
  }

  /** The castling letters in the order K, Q, k, q, or "-" when no right is held. */
  function CastlingField(rights: CastlingRights): string {
    var letters := (if rights.white.kingSide then "K" else "") + (if rights.white.queenSide then "Q" else "") +
                   (if rights.black.kingSide then "k" else "") + (if rights.black.queenSide then "q" else "");
    if letters == "" then "-" else letters
  }

  function EnPassantField(target: Option<Square>): string
    requires target.Some? ==> OnBoard(target.value)
  {
    if target.Some? then ToAlgebraic(target.value.row, target.value.col) else "-"
  }

  /** generateFen. The source accepts any string as the en-passant target; every target
      the engine holds is the name of a board square. */
  function Generate(position: Position): string
    requires position.enPassantTarget.Some? ==> OnBoard(position.enPassantTarget.value)
  {
    Placement(position.pieces) + " " + ActiveColorField(position.currentPlayer) + " " +
    CastlingField(position.castlingRights) + " " + EnPassantField(position.enPassantTarget) + " " +
    IntToString(position.halfmoveClock) + " " + IntToString(position.fullmoveNumber)
  }

  /** One step of the rank loop at an occupied square, with the text written so far in front. */
  lemma RankRunAtPiece(written: string, pieces: map<Square, Piece>, row: int, col: nat, emptyCount: nat)
    requires col < 8 && Square(row, col + 1) in pieces
    ensures written + RankRun(pieces, row, col, emptyCount) ==
            (written + Flush(emptyCount) + [PieceToFen(pieces[Square(row, col + 1)])]) + RankRun(pieces, row, col + 1, 0)
  {
  }

  lemma RankRunAtEmpty(pieces: map<Square, Piece>, row: int, col: nat, emptyCount: nat)
    requires col < 8 && Square(row, col + 1) !in pieces
    ensures RankRun(pieces, row, col, emptyCount) == RankRun(pieces, row, col + 1, emptyCount + 1)
  {
  }

  /** The piece placement loop of generateFen, over the ranks from rank 8 down. */
  method GeneratePlacement(pieces: map<Square, Piece>) returns (piecePlacement: string)
    ensures piecePlacement == Placement(pieces)
  {
    piecePlacement := "";
    for row := 0 to 8
      invariant piecePlacement == PlacementUpTo(pieces, row)
    {
      piecePlacement := AppendRank(piecePlacement, pieces, row);
      if row < 7 {
        piecePlacement := piecePlacement + "/";
      }
    }
  }

  /** The inner loop of generateFen over the files of one rank, with the running
      `emptyCount`; `row` counts from 0 at rank 8 as in the source. */
  method AppendRank(piecePlacement0: string, pieces: map<Square, Piece>, row: int) returns (piecePlacement: string)
    ensures piecePlacement == piecePlacement0 + RankText(pieces, row + 1)
  {
    piecePlacement := piecePlacement0;
    var emptyCount: nat := 0;
    for col := 0 to 8
      invariant piecePlacement + RankRun(pieces, row + 1, col, emptyCount) == piecePlacement0 + RankText(pieces, row + 1)
    {
      // The square is the file of `col` on rank 8 - row
      var square := Square(row + 1, col + 1);
      if square in pieces {
        RankRunAtPiece(piecePlacement, pieces, row + 1, col, emptyCount);
        ghost var next := piecePlacement + Flush(emptyCount) + [PieceToFen(pieces[square])];
        if emptyCount > 0 {
          piecePlacement := piecePlacement + NatToString(emptyCount);
          emptyCount := 0;
        } else {
          assert piecePlacement + Flush(emptyCount) == piecePlacement;
        }
        piecePlacement := piecePlacement + [PieceToFen(pieces[square])];
        assert piecePlacement == next;
      } else {
        RankRunAtEmpty(pieces, row + 1, col, emptyCount);
        emptyCount := emptyCount + 1;
      }
    }
    if emptyCount > 0 {
      piecePlacement := piecePlacement + NatToString(emptyCount);
    }
  }

  method GenerateFen(position: Position) returns (fen: string)
    requires position.enPassantTarget.Some? ==> OnBoard(position.enPassantTarget.value)
    ensures fen == Generate(position)
  {
    var piecePlacement := GeneratePlacement(position.pieces);

    var activeColor := if position.currentPlayer == White then "w" else "b";

    var castling := "";
    if position.castlingRights.white.kingSide { castling := castling + "K"; }
    if position.castlingRights.white.queenSide { castling := castling + "Q"; }
    if position.castlingRights.black.kingSide { castling := castling + "k"; }
    if position.castlingRights.black.queenSide { castling := castling + "q"; }
    if castling == "" { castling := "-"; }
    assert castling == CastlingField(position.castlingRights);

    var enPassant := if position.enPassantTarget.Some?
                     then ToAlgebraic(position.enPassantTarget.value.row, position.enPassantTarget.value.col)
                     else "-";

    fen := piecePlacement + " " + activeColor + " " + castling + " " + enPassant + " " +
           IntToString(position.halfmoveClock) + " " + IntToString(position.fullmoveNumber);
  }
}
