/** Board coordinates, algebraic square names and piece codes (src/utils/chessUtils.js). */
module ChessUtils {
  import opened Wrappers

  /** A board coordinate. Row 1 is rank 8 (the top of the board), column 1 is file 'a'.
      Coordinates are unbounded integers so that a move generator can form a target
      square off the board and then reject it, as the JavaScript does. */
  datatype Square = Square(row: int, col: int)

  /** The file letters, indexed by column - 1. */
  const FILES: string := "abcdefgh"

  predicate IsWithinBoard(row: int, col: int) {
    row >= 1 && row <= 8 && col >= 1 && col <= 8
  }

  predicate OnBoard(s: Square) {
    IsWithinBoard(s.row, s.col)
  }

  predicate IsDigit(c: char) {
    '0' <= c <= '9'
  }

  function DigitValue(c: char): (n: int)
    requires IsDigit(c)
    ensures 0 <= n <= 9
  {
    c as int - '0' as int
  }

  function DigitChar(n: int): (c: char)
    requires 0 <= n <= 9
    ensures IsDigit(c) && DigitValue(c) == n
  {
    ('0' as int + n) as char
  }

  /** `Array.prototype.indexOf` on a string: the first index holding `c`, or -1. */
  function IndexOf(s: string, c: char): (i: int)
    ensures -1 <= i < |s|
    ensures i >= 0 ==> s[i] == c && forall j :: 0 <= j < i ==> s[j] != c
    ensures i == -1 <==> c !in s
  {
    if s == [] then -1
    else if s[0] == c then 0
    else
      var k := IndexOf(s[1..], c);
      if k == -1 then -1 else k + 1
  }

  /** A well-formed square name: a file letter a-h followed by a rank digit 1-8. */
  predicate IsSquareName(s: string) {
    |s| == 2 && s[0] in FILES && '1' <= s[1] <= '8'
  }

  /** `toAlgebraic(row, col)`: the file is FILES[col - 1] and the rank is 9 - row.
      Every call site in the source passes an on-board coordinate. */
  function ToAlgebraic(row: int, col: int): (s: string)
    requires IsWithinBoard(row, col)
    ensures IsSquareName(s)
    ensures s[0] == FILES[col - 1] && DigitValue(s[1]) == 9 - row
  {
    [FILES[col - 1], DigitChar(8 - row + 1)]
  }

  /** `fromAlgebraic(alg)`: the column is one more than the index of the file letter
      (so 0 when the letter is not a file) and the row is 9 - rank. The source only
      applies it to names whose second character is a digit. */
  function FromAlgebraic(alg: string): (sq: Square)
    requires |alg| >= 2 && IsDigit(alg[1])
    ensures sq.row == 9 - DigitValue(alg[1])
    ensures |alg| == 2 ==> (OnBoard(sq) <==> IsSquareName(alg))
  {
    var col := IndexOf(FILES, alg[0]) + 1;
    var row := 8 - DigitValue(alg[1]) + 1;
    Square(row, col)
  }

  lemma FileIndex(col: int)
    requires 1 <= col <= 8
    ensures IndexOf(FILES, FILES[col - 1]) == col - 1
  {
    FileLetters();
  }

  /** The file letters are consecutive, so no two columns share one. */
  lemma FileLetters()
    ensures |FILES| == 8
    ensures forall j :: 0 <= j < 8 ==> FILES[j] as int == 'a' as int + j
  {
  }

  /** fromAlgebraic(toAlgebraic(row, col)) == {row, col} on the whole board. */
  lemma FromToAlgebraic(row: int, col: int)
    requires IsWithinBoard(row, col)
    ensures FromAlgebraic(ToAlgebraic(row, col)) == Square(row, col)
  {
    FileIndex(col);
  }

  /** toAlgebraic(fromAlgebraic(s)) == s for every well-formed square name. */
  lemma ToFromAlgebraic(s: string)
    requires IsSquareName(s)
    ensures OnBoard(FromAlgebraic(s))
    ensures ToAlgebraic(FromAlgebraic(s).row, FromAlgebraic(s).col) == s
  {
    var sq := FromAlgebraic(s);
    var t := ToAlgebraic(sq.row, sq.col);
    assert t[0] == s[0];
    assert t[1] == s[1];
  }

  /** The on-board coordinates are exactly those that have a square name. */
  lemma WithinBoardIffNamed(row: int, col: int)
    ensures IsWithinBoard(row, col) <==>
            exists s :: IsSquareName(s) && FromAlgebraic(s) == Square(row, col)
  {
    if IsWithinBoard(row, col) {
      FromToAlgebraic(row, col);
      var s := ToAlgebraic(row, col);
      assert IsSquareName(s) && FromAlgebraic(s) == Square(row, col);
    }
  }

  /** Two distinct on-board coordinates never share a name, so a board keyed by
      Square is the same thing as the source's board keyed by square names. */
  lemma ToAlgebraicInjective(a: Square, b: Square)
    requires OnBoard(a) && OnBoard(b)
    requires ToAlgebraic(a.row, a.col) == ToAlgebraic(b.row, b.col)
    ensures a == b
  {
    FromToAlgebraic(a.row, a.col);
    FromToAlgebraic(b.row, b.col);
  }

  // ---------------------------------------------------------------- pieces

  datatype Color = White | Black

  function Opponent(c: Color): (o: Color)
    ensures o != c
  {
    if c == White then Black else White
  }

  datatype Kind = King | Queen | Rook | Bishop | Knight | Pawn

  /** The source stores a piece as one of twelve numeric codes; here it is a pair. */
  datatype Piece = Piece(color: Color, kind: Kind)

  const WHITE_KING: int := 9812
  const WHITE_QUEEN: int := 9813
  const WHITE_ROOK: int := 9814
  const WHITE_BISHOP: int := 9815
  const WHITE_KNIGHT: int := 9816
  const WHITE_PAWN: int := 9817
  const BLACK_KING: int := 9818
  const BLACK_QUEEN: int := 9819
  const BLACK_ROOK: int := 9820
  const BLACK_BISHOP: int := 9821
  const BLACK_KNIGHT: int := 9822
  const BLACK_PAWN: int := 9823

  /** The PIECE_CODES entry of a piece. */
  function Code(p: Piece): int {
    match p
    case Piece(White, King) => WHITE_KING
    case Piece(White, Queen) => WHITE_QUEEN
    case Piece(White, Rook) => WHITE_ROOK
    case Piece(White, Bishop) => WHITE_BISHOP
    case Piece(White, Knight) => WHITE_KNIGHT
    case Piece(White, Pawn) => WHITE_PAWN
    case Piece(Black, King) => BLACK_KING
    case Piece(Black, Queen) => BLACK_QUEEN
    case Piece(Black, Rook) => BLACK_ROOK
    case Piece(Black, Bishop) => BLACK_BISHOP
    case Piece(Black, Knight) => BLACK_KNIGHT
    case Piece(Black, Pawn) => BLACK_PAWN
  }

  /** `isWhitePiece(code)`: the code lies in the white range. */
  predicate IsWhitePiece(code: int) {
    code >= WHITE_KING && code <= WHITE_PAWN
  }

  /** The code range test of isWhitePiece decides the colour, every white code is
      strictly below every black code, and the engine's test `code <= WHITE_PAWN`
      agrees with isWhitePiece on every piece code. */
  lemma CodeColor(p: Piece)
    ensures WHITE_KING <= Code(p) <= BLACK_PAWN
    ensures IsWhitePiece(Code(p)) <==> p.color == White
    ensures (Code(p) <= WHITE_PAWN) <==> IsWhitePiece(Code(p))
  {
  }

  lemma WhiteBelowBlack(p: Piece, q: Piece)
    requires p.color == White && q.color == Black
    ensures Code(p) < Code(q)
  {
  }

  /** Distinct pieces have distinct codes. */
  lemma CodeInjective(p: Piece, q: Piece)
    ensures Code(p) == Code(q) <==> p == q
  {
  }

  /** Castling availability of one colour, and of both: the shape of the engine's
      `castlingRights` state and of the record that `parseFen` returns. */
  datatype Rights = Rights(kingSide: bool, queenSide: bool)

  datatype CastlingRights = CastlingRights(white: Rights, black: Rights)

  function RightsOf(rights: CastlingRights, c: Color): Rights {
    if c == White then rights.white else rights.black
  }

  // ------------------------------------------------------- starting position

  /** The pieces of rank 8 and of rank 1, from file 'a' to file 'h'. */
  const BACK_RANK: seq<Kind> := [Rook, Knight, Bishop, Queen, King, Bishop, Knight, Rook]

  /** The source's `initialPieces` table, row by row: rank 8 holds the black back rank,
      rank 7 black pawns, rank 2 white pawns and rank 1 the white back rank ("a8" is
      Square(1, 1), "e1" is Square(8, 5)). */
  function StartPiece(row: int, col: int): Piece
    requires IsWithinBoard(row, col)
  {
    Piece(if row <= 2 then Black else White,
          if row == 2 || row == 7 then Pawn else BACK_RANK[col - 1])
  }

  const InitialPieces: map<Square, Piece> :=
    map s | s in AllSquares && IsHomeRow(s.row) :: StartPiece(s.row, s.col)

  /** The 64 squares of the board. */
  const AllSquares: set<Square> := set row: int, col: int | 1 <= row <= 8 && 1 <= col <= 8 :: Square(row, col)

  lemma AllSquaresOnBoard()
    ensures forall s :: s in AllSquares <==> OnBoard(s)
  {
    forall s | OnBoard(s) ensures s in AllSquares {
      assert s == Square(s.row, s.col);
    }
  }

  /** The home rows of the starting position: ranks 8, 7, 2 and 1. */
  predicate IsHomeRow(row: int) {
    row == 1 || row == 2 || row == 7 || row == 8
  }

  lemma InitialPieceAt(row: int, col: int)
    requires IsWithinBoard(row, col) && IsHomeRow(row)
    ensures Square(row, col) in InitialPieces
    ensures InitialPieces[Square(row, col)] == StartPiece(row, col)
  {
  }

  /** initialPieces occupies exactly the squares of ranks 1, 2, 7 and 8. */
  lemma InitialPiecesSquares()
    ensures forall s :: s in InitialPieces <==> OnBoard(s) && IsHomeRow(s.row)
    ensures forall s :: s in InitialPieces ==> InitialPieces[s] == StartPiece(s.row, s.col)
  {
    forall s | OnBoard(s) && IsHomeRow(s.row)
      ensures s in InitialPieces && InitialPieces[s] == StartPiece(s.row, s.col)
    {
      InitialPieceAt(s.row, s.col);
    }
  }

  /** Black stands on ranks 7-8 and white on ranks 1-2, the pawns on ranks 2 and 7,
      the white king on e1 and the black king on e8. */
  lemma InitialPiecesPlacement()
    ensures forall s :: s in InitialPieces ==> (InitialPieces[s].color == Black <==> s.row <= 2)
    ensures forall s :: s in InitialPieces ==> (InitialPieces[s].kind == Pawn <==> s.row == 2 || s.row == 7)
    ensures Square(8, 5) in InitialPieces && InitialPieces[Square(8, 5)] == Piece(White, King)
    ensures Square(1, 5) in InitialPieces && InitialPieces[Square(1, 5)] == Piece(Black, King)
  {
    InitialPiecesSquares();
    InitialPieceAt(8, 5);
    InitialPieceAt(1, 5);
  }
}
