/** What the FEN codec of src/utils/fenUtils.js guarantees: the castling pattern accepts
    exactly the fields generateFen writes, a successful parse yields a position that
    generateFen can write, and parsing what generateFen writes gives the position back. */
module FenProperties {
  import opened Wrappers
  import opened ChessUtils
  import opened Text
  import opened FenUtils

  // ========================================================== castling field

  /** The letters of a pattern, in order. */
  function LettersOf(items: seq<Item>): string
    ensures |LettersOf(items)| == |items|
  {
    if items == [] then "" else [items[0].letter] + LettersOf(items[1..])
  }

  /** No letter occurs twice in the pattern. */
  predicate DistinctLetters(items: seq<Item>) {
    items == [] || (items[0].letter !in LettersOf(items[1..]) && DistinctLetters(items[1..]))
  }

  /** The letters of the pattern that occur in `t`, in the pattern's order. */
  function Chosen(items: seq<Item>, t: string): string {
    if items == [] then ""
    else (if items[0].letter in t then [items[0].letter] else "") + Chosen(items[1..], t)
  }

  /** A string that matches a pattern holds only the pattern's letters. */
  lemma {:induction false} MatchOnlyLetters(s: string, items: seq<Item>)
    requires MatchItems(s, items)
    ensures forall c :: c in s ==> c in LettersOf(items)
    decreases |items|
  {
    if items != [] {
      if s != [] && s[0] == items[0].letter && MatchItems(s[1..], items[1..]) {
        MatchOnlyLetters(s[1..], items[1..]);
        assert s == [s[0]] + s[1..];
      } else {
        MatchOnlyLetters(s, items[1..]);
      }
    }
  }

  /** Chosen only looks at the pattern's letters. */
  lemma {:induction false} ChosenIgnores(items: seq<Item>, t1: string, t2: string)
    requires forall c :: c in LettersOf(items) ==> (c in t1 <==> c in t2)
    ensures Chosen(items, t1) == Chosen(items, t2)
    decreases |items|
  {
    if items != [] {
      assert items[0].letter in LettersOf(items);
      ChosenIgnores(items[1..], t1, t2);
    }
  }

  /** With distinct letters, a string that matches the pattern is the set of its letters
      written in the pattern's order: it has no repeated letter and no other order. */
  lemma {:induction false} MatchIsChosen(s: string, items: seq<Item>)
    requires DistinctLetters(items)
    requires MatchItems(s, items)
    ensures s == Chosen(items, s)
    decreases |items|
  {
    if items != [] {
      var l := items[0].letter;
      if s != [] && s[0] == l && MatchItems(s[1..], items[1..]) {
        MatchIsChosen(s[1..], items[1..]);
        assert s == [s[0]] + s[1..];
        ChosenIgnores(items[1..], s[1..], s);
      } else {
        MatchIsChosen(s, items[1..]);
        MatchOnlyLetters(s, items[1..]);
        assert l !in s;
      }
    }
  }

  /** The letters of `t` in the pattern's order match the pattern when `t` holds every
      letter the pattern requires. */
  lemma {:induction false} ChosenMatches(items: seq<Item>, t: string)
    requires forall i :: 0 <= i < |items| && !items[i].optional ==> items[i].letter in t
    ensures MatchItems(Chosen(items, t), items)
    decreases |items|
  {
    if items != [] {
      assert forall i :: 0 <= i < |items| - 1 && !items[1..][i].optional ==> items[1..][i].letter in t by {
        forall i | 0 <= i < |items| - 1 && !items[1..][i].optional ensures items[1..][i].letter in t {
          assert items[1..][i] == items[i + 1];
        }
      }
      ChosenMatches(items[1..], t);
      var rest := Chosen(items[1..], t);
      if items[0].letter in t {
        assert Chosen(items, t) == [items[0].letter] + rest;
        assert Chosen(items, t)[1..] == rest;
      } else {
        assert Chosen(items, t) == rest;
      }
    }
  }

  /** Over a pattern with the letters K, Q, k, q: the castling letters of `t`, present
      ones in that order. */
  lemma ChosenCastling(items: seq<Item>, t: string)
    requires |items| == 4
    requires items[0].letter == 'K' && items[1].letter == 'Q'
    requires items[2].letter == 'k' && items[3].letter == 'q'
    ensures Chosen(items, t) ==
            (if 'K' in t then "K" else "") + (if 'Q' in t then "Q" else "") +
            (if 'k' in t then "k" else "") + (if 'q' in t then "q" else "")
    ensures DistinctLetters(items)
  {
    var i1, i2, i3 := items[1..], items[2..], items[3..];
    assert i1[1..] == i2 && i2[1..] == i3 && i3[1..] == [];
    assert i1[0] == items[1] && i2[0] == items[2] && i3[0] == items[3];
    assert LettersOf(i3) == "q";
    assert LettersOf(i2) == "kq";
    assert LettersOf(i1) == "Qkq";
    assert DistinctLetters(i3);
    assert DistinctLetters(i2);
    assert DistinctLetters(i1);
    assert Chosen(i3, t) == (if 'q' in t then "q" else "");
    assert Chosen(i2, t) == (if 'k' in t then "k" else "") + Chosen(i3, t);
    assert Chosen(i1, t) == (if 'Q' in t then "Q" else "") + Chosen(i2, t);
  }

  /** generateFen's castling field passes parseFen's castling check, and parseFen reads
      the same rights back from it. */
  lemma CastlingRoundTrip(rights: CastlingRights)
    ensures CastlingPattern(CastlingField(rights))
    ensures ParseCastling(CastlingField(rights)) == rights
  {
    var f := CastlingField(rights);
    var items := if rights.white.kingSide then CASTLING_ALTERNATIVES[0]
                 else if rights.white.queenSide then CASTLING_ALTERNATIVES[1]
                 else if rights.black.kingSide then CASTLING_ALTERNATIVES[2]
                 else CASTLING_ALTERNATIVES[3];
    if f != "-" {
      ChosenCastling(items, f);
      ChosenMatches(items, f);
    }
  }

  /** Every castling field parseFen accepts is the one generateFen writes for the rights
      it reads: the letters come in the order K, Q, k, q, none twice, or the field is "-". */
  lemma CastlingCanonical(s: string)
    requires CastlingPattern(s)
    ensures CastlingField(ParseCastling(s)) == s
  {
    if s != "-" {
      var items := if MatchItems(s, CASTLING_ALTERNATIVES[0]) then CASTLING_ALTERNATIVES[0]
                   else if MatchItems(s, CASTLING_ALTERNATIVES[1]) then CASTLING_ALTERNATIVES[1]
                   else if MatchItems(s, CASTLING_ALTERNATIVES[2]) then CASTLING_ALTERNATIVES[2]
                   else CASTLING_ALTERNATIVES[3];
      ChosenCastling(items, s);
      MatchIsChosen(s, items);
    }
  }

  /** The castling check accepts exactly the sixteen fields generateFen can write. */
  lemma CastlingPatternExactly(s: string)
    ensures CastlingPattern(s) <==> s == CastlingField(ParseCastling(s))
  {
    if CastlingPattern(s) {
      CastlingCanonical(s);
    } else {
      CastlingRoundTrip(ParseCastling(s));
    }
  }

  // ========================================================= placement field

  /** A character a rank of the placement field may hold: a run length 1-8 or a piece letter. */
  predicate ValidRankChar(c: char) {
    IsEmptyRun(c) || c in PIECE_LETTERS
  }

  /** The length of the leading run of characters a rank may hold. */
  function ValidRun(s: string): (n: nat)
    ensures n <= |s|
    ensures forall j :: 0 <= j < n ==> ValidRankChar(s[j])
    ensures n < |s| ==> !ValidRankChar(s[n])
  {
    if s != [] && ValidRankChar(s[0]) then 1 + ValidRun(s[1..]) else 0
  }

  /** The number of columns a rank covers: each run length its value, each letter one. */
  function RankWidth(s: string): int {
    if s == [] then 0
    else (if IsEmptyRun(s[0]) then DigitValue(s[0]) else 1) + RankWidth(s[1..])
  }

  /** Scanning a rank fails exactly at its first character that is neither a run length
      nor a piece letter, and reports that character; otherwise it advances the column
      by the rank's width. */
  lemma {:induction false} ScanRankOutcome(s: string, row: int, col: int, pieces: map<Square, Piece>)
    ensures ScanRank(s, row, col, pieces).Ok? <==> ValidRun(s) == |s|
    ensures ScanRank(s, row, col, pieces).Ok? ==> ScanRank(s, row, col, pieces).value.0 == col + RankWidth(s)
    ensures ScanRank(s, row, col, pieces).Err? ==>
              ValidRun(s) < |s| && ScanRank(s, row, col, pieces).error == UnknownCharacter(s[ValidRun(s)])
    decreases |s|
  {
    if s != [] {
      if IsEmptyRun(s[0]) {
        ScanRankOutcome(s[1..], row, col + DigitValue(s[0]), pieces);
      } else if s[0] in PIECE_LETTERS {
        ScanRankOutcome(s[1..], row, col + 1, pieces[Square(row + 1, col + 1) := FenToPiece(s[0]).value]);
      }
    }
  }

  /** Where scanning a rank puts pieces: on its own board row, from column `col` + 1 up to
      the column it reaches. */
  predicate PlacedWithin(result: map<Square, Piece>, pieces: map<Square, Piece>, row: int, col: int, reached: int) {
    forall sq :: sq in result ==> sq in pieces || (sq.row == row && col + 1 <= sq.col <= reached)
  }

  lemma {:induction false} ScanRankSquares(s: string, row: int, col: int, pieces: map<Square, Piece>)
    requires ScanRank(s, row, col, pieces).Ok?
    ensures col <= ScanRank(s, row, col, pieces).value.0
    ensures PlacedWithin(ScanRank(s, row, col, pieces).value.1, pieces, row + 1, col, ScanRank(s, row, col, pieces).value.0)
    decreases |s|
  {
    if s != [] {
      if IsEmptyRun(s[0]) {
        ScanRankSquares(s[1..], row, col + DigitValue(s[0]), pieces);
      } else {
        var next := pieces[Square(row + 1, col + 1) := FenToPiece(s[0]).value];
        ScanRankSquares(s[1..], row, col + 1, next);
      }
    }
  }

  /** Scanning the ranks from index `row` on adds only squares of the board below that row. */
  lemma {:induction false} ScanRanksSquares(rows: seq<string>, row: nat, pieces: map<Square, Piece>)
    requires |rows| == 8 && row <= 8
    requires ScanRanks(rows, row, pieces).Ok?
    ensures forall sq :: sq in ScanRanks(rows, row, pieces).value ==> sq in pieces || (OnBoard(sq) && sq.row > row)
    decreases 8 - row
  {
    if row < 8 {
      var scanned := ScanRank(rows[row], row, 0, pieces);
      ScanRankSquares(rows[row], row, 0, pieces);
      ScanRanksSquares(rows, row + 1, scanned.value.1);
    }
  }

  /** Every piece of a placement field that parses stands on a board square. */
  lemma ParsePlacementOnBoard(field: string)
    requires ParsePlacement(field).Ok?
    ensures forall sq :: sq in ParsePlacement(field).value ==> OnBoard(sq)
  {
    ScanRanksSquares(Split(field, '/'), 0, map[]);
  }

  /** A rank the placement check accepts: nothing but run lengths and piece letters,
      covering exactly 8 columns. */
  predicate GoodRank(s: string) {
    ValidRun(s) == |s| && RankWidth(s) == 8
  }

  /** Scanning the ranks from index `row` on succeeds exactly when each of them is a good rank. */
  lemma {:induction false} ScanRanksOutcome(rows: seq<string>, row: nat, pieces: map<Square, Piece>)
    requires |rows| == 8 && row <= 8
    ensures ScanRanks(rows, row, pieces).Ok? <==> forall i :: row <= i < 8 ==> GoodRank(rows[i])
    decreases 8 - row
  {
    if row < 8 {
      ScanRankOutcome(rows[row], row, 0, pieces);
      var scanned := ScanRank(rows[row], row, 0, pieces);
      if scanned.Ok? && scanned.value.0 == 8 {
        ScanRanksOutcome(rows, row + 1, scanned.value.1);
      }
    }
  }

  /** The placement field parses exactly when it splits on '/' into 8 good ranks; with
      another number of ranks the error is the rank count. */
  lemma ParsePlacementRules(field: string)
    ensures var rows := Split(field, '/');
            (|rows| != 8 ==> ParsePlacement(field) == Err(WrongRankCount)) &&
            (ParsePlacement(field).Ok? <==> |rows| == 8 && forall i :: 0 <= i < 8 ==> GoodRank(rows[i]))
  {
    var rows := Split(field, '/');
    if |rows| == 8 {
      ScanRanksOutcome(rows, 0, map[]);
    }
  }

  /** The five text fields parseFen accepts: colour 'w' or 'b', a castling field of the
      pattern, '-' or a third- or sixth-rank square, a halfmove clock of at least 0 and a
      fullmove number of at least 1. */
  predicate GoodFields(activeColor: string, castling: string, enPassant: string,
                       halfmoveClock: string, fullmoveNumber: string) {
    (activeColor == "w" || activeColor == "b") && CastlingPattern(castling) &&
    (enPassant == "-" || EnPassantPattern(enPassant)) &&
    ParseInt(halfmoveClock).Some? && ParseInt(halfmoveClock).value >= 0 &&
    ParseInt(fullmoveNumber).Some? && ParseInt(fullmoveNumber).value >= 1
  }

  /** The checks after the placement fail in the source's order, and an accepted record
      holds each castling right as the presence of its letter, no target exactly when the
      field is '-', and the parsed clocks. */
  lemma ParseStateRules(pieces: map<Square, Piece>, activeColor: string, castling: string, enPassant: string,
                        halfmoveClock: string, fullmoveNumber: string)
    ensures var r := ParseState(pieces, activeColor, castling, enPassant, halfmoveClock, fullmoveNumber);
            var colorOk := activeColor == "w" || activeColor == "b";
            var enPassantOk := enPassant == "-" || EnPassantPattern(enPassant);
            var halfmoveOk := ParseInt(halfmoveClock).Some? && ParseInt(halfmoveClock).value >= 0;
            var fullmoveOk := ParseInt(fullmoveNumber).Some? && ParseInt(fullmoveNumber).value >= 1;
            (r.Ok? <==> GoodFields(activeColor, castling, enPassant, halfmoveClock, fullmoveNumber)) &&
            (!colorOk ==> r == Err(BadActiveColor)) &&
            (colorOk && !CastlingPattern(castling) ==> r == Err(BadCastling)) &&
            (colorOk && CastlingPattern(castling) && !enPassantOk ==> r == Err(BadEnPassant)) &&
            (colorOk && CastlingPattern(castling) && enPassantOk && !halfmoveOk ==> r == Err(BadHalfmoveClock)) &&
            (colorOk && CastlingPattern(castling) && enPassantOk && halfmoveOk && !fullmoveOk ==>
               r == Err(BadFullmoveNumber)) &&
            (r.Ok? ==>
               r.value.pieces == pieces &&
               (r.value.currentPlayer == White <==> activeColor == "w") &&
               r.value.castlingRights.white.kingSide == ('K' in castling) &&
               r.value.castlingRights.white.queenSide == ('Q' in castling) &&
               r.value.castlingRights.black.kingSide == ('k' in castling) &&
               r.value.castlingRights.black.queenSide == ('q' in castling) &&
               (r.value.enPassantTarget.None? <==> enPassant == "-") &&
               (r.value.enPassantTarget.Some? ==> r.value.enPassantTarget.value == FromAlgebraic(enPassant)) &&
               r.value.halfmoveClock == ParseInt(halfmoveClock).value &&
               r.value.fullmoveNumber == ParseInt(fullmoveNumber).value)
  {
  }

  /** parseFen accepts exactly the records with 6 fields after trimming, 8 good ranks and
      good text fields; with another field count the error is the field count. */
  lemma ParseRules(fen: string)
    ensures var parts := Split(Trim(fen), ' ');
            (|parts| != 6 ==> Parse(fen) == Err(WrongFieldCount)) &&
            (Parse(fen).Ok? <==>
               |parts| == 6 &&
               |Split(parts[0], '/')| == 8 && (forall i :: 0 <= i < 8 ==> GoodRank(Split(parts[0], '/')[i])) &&
               GoodFields(parts[1], parts[2], parts[3], parts[4], parts[5]))
  {
    var parts := Split(Trim(fen), ' ');
    if |parts| == 6 {
      ParsePlacementRules(parts[0]);
      if ParsePlacement(parts[0]).Ok? {
        ParseStateRules(ParsePlacement(parts[0]).value, parts[1], parts[2], parts[3], parts[4], parts[5]);
      }
    }
  }

  // ============================================================ parse results

  /** The shape of every position parseFen returns: pieces on the board, an en-passant
      target on the third or sixth rank, clocks in the ranges parseFen accepts. */
  predicate WellFormed(p: Position) {
    (forall sq :: sq in p.pieces ==> OnBoard(sq)) &&
    (p.enPassantTarget.Some? ==>
       OnBoard(p.enPassantTarget.value) && (p.enPassantTarget.value.row == 3 || p.enPassantTarget.value.row == 6)) &&
    p.halfmoveClock >= 0 && p.fullmoveNumber >= 1
  }

  /** Both clocks are safe integers, so the number text generateFen writes is plain
      digits that parseInt reads back exactly. */
  predicate SafeClocks(p: Position) {
    p.halfmoveClock <= MAX_SAFE_INTEGER && p.fullmoveNumber <= MAX_SAFE_INTEGER
  }

  /** A position generateFen writes and parseFen reads back. */
  predicate Encodable(p: Position) {
    WellFormed(p) && SafeClocks(p)
  }

  /** An en-passant field that passes the check names a square of the third or sixth rank. */
  lemma EnPassantSquare(s: string)
    requires EnPassantPattern(s)
    ensures OnBoard(FromAlgebraic(s))
    ensures FromAlgebraic(s).row == 3 || FromAlgebraic(s).row == 6
  {
    FileLetters();
    assert s[0] == FILES[s[0] as int - 'a' as int];
  }

  lemma ParseStateWellFormed(pieces: map<Square, Piece>, activeColor: string, castling: string, enPassant: string,
                            halfmoveClock: string, fullmoveNumber: string)
    requires forall sq :: sq in pieces ==> OnBoard(sq)
    requires ParseState(pieces, activeColor, castling, enPassant, halfmoveClock, fullmoveNumber).Ok?
    ensures WellFormed(ParseState(pieces, activeColor, castling, enPassant, halfmoveClock, fullmoveNumber).value)
  {
    if enPassant != "-" {
      EnPassantSquare(enPassant);
    }
  }

  /** Whatever parseFen accepts has the shape generateFen writes. */
  lemma ParseWellFormed(fen: string)
    requires Parse(fen).Ok?
    ensures WellFormed(Parse(fen).value)
  {
    var parts := Split(Trim(fen), ' ');
    ParsePlacementOnBoard(parts[0]);
    ParseStateWellFormed(ParsePlacement(parts[0]).value, parts[1], parts[2], parts[3], parts[4], parts[5]);
  }

  // ============================================================== round trip

  /** The pieces of rows above `row`, and of row `row` up to column `col`. */
  function Upto(pieces: map<Square, Piece>, row: int, col: int): map<Square, Piece> {
    map sq | sq in pieces && (sq.row < row || (sq.row == row && sq.col <= col)) :: pieces[sq]
  }

  lemma UptoPiece(pieces: map<Square, Piece>, row: int, col: int)
    requires Square(row, col + 1) in pieces
    ensures Upto(pieces, row, col)[Square(row, col + 1) := pieces[Square(row, col + 1)]] == Upto(pieces, row, col + 1)
  {
  }

  lemma UptoEmpty(pieces: map<Square, Piece>, row: int, col: int)
    requires Square(row, col + 1) !in pieces
    ensures Upto(pieces, row, col) == Upto(pieces, row, col + 1)
  {
  }

  lemma UptoNextRow(pieces: map<Square, Piece>, row: int)
    requires forall sq :: sq in pieces ==> OnBoard(sq)
    ensures Upto(pieces, row, 8) == Upto(pieces, row + 1, 0)
  {
  }

  lemma UptoBounds(pieces: map<Square, Piece>)
    requires forall sq :: sq in pieces ==> OnBoard(sq)
    ensures Upto(pieces, 1, 0) == map[]
    ensures Upto(pieces, 9, 0) == pieces
  {
  }

  /** A run of 1-8 empty squares is written as one digit, which the scanner reads back. */
  lemma ScanFlush(emptyCount: nat, rest: string, row: int, col: int, acc: map<Square, Piece>)
    requires emptyCount <= 8
    ensures ScanRank(Flush(emptyCount) + rest, row, col, acc) == ScanRank(rest, row, col + emptyCount, acc)
  {
    if emptyCount > 0 {
      var d := DigitChar(emptyCount);
      assert Flush(emptyCount) == [d];
      assert IsEmptyRun(d) && DigitValue(d) == emptyCount;
      assert ([d] + rest)[0] == d && ([d] + rest)[1..] == rest;
    } else {
      assert Flush(emptyCount) + rest == rest;
    }
  }

  lemma ScanLetter(p: Piece, rest: string, row: int, col: int, acc: map<Square, Piece>)
    ensures ScanRank([PieceToFen(p)] + rest, row, col, acc) ==
            ScanRank(rest, row, col + 1, acc[Square(row + 1, col + 1) := p])
  {
    assert ([PieceToFen(p)] + rest)[1..] == rest;
  }

  /** Scanning the text generateFen writes for a row, from column `col` with
      `emptyCount` empty squares pending, gives back the pieces of that row. */
  lemma {:induction false} ScanRankRun(pieces: map<Square, Piece>, row: int, col: nat, emptyCount: nat)
    requires 1 <= row <= 8 && emptyCount <= col <= 8
    ensures ScanRank(RankRun(pieces, row, col, emptyCount), row - 1, col - emptyCount, Upto(pieces, row, col)) ==
            Ok((8, Upto(pieces, row, 8)))
    decreases 8 - col
  {
    if col == 8 {
      ScanFlush(emptyCount, [], row - 1, col - emptyCount, Upto(pieces, row, col));
      assert Flush(emptyCount) + [] == Flush(emptyCount);
    } else if Square(row, col + 1) in pieces {
      ScanPieceStep(pieces, row, col, emptyCount);
      ScanRankRun(pieces, row, col + 1, 0);
    } else {
      UptoEmpty(pieces, row, col);
      ScanRankRun(pieces, row, col + 1, emptyCount + 1);
    }
  }

  lemma RankRunPiece(pieces: map<Square, Piece>, row: int, col: nat, emptyCount: nat)
    requires col < 8 && Square(row, col + 1) in pieces
    ensures RankRun(pieces, row, col, emptyCount) ==
            Flush(emptyCount) + ([PieceToFen(pieces[Square(row, col + 1)])] + RankRun(pieces, row, col + 1, 0))
  {
    var a, b, c := Flush(emptyCount), [PieceToFen(pieces[Square(row, col + 1)])], RankRun(pieces, row, col + 1, 0);
    assert (a + b) + c == a + (b + c);
  }

  /** At an occupied square: the pending run, then the piece letter, are read back. */
  lemma ScanPieceStep(pieces: map<Square, Piece>, row: int, col: nat, emptyCount: nat)
    requires emptyCount <= col < 8 && Square(row, col + 1) in pieces
    ensures ScanRank(RankRun(pieces, row, col, emptyCount), row - 1, col - emptyCount, Upto(pieces, row, col)) ==
            ScanRank(RankRun(pieces, row, col + 1, 0), row - 1, col + 1, Upto(pieces, row, col + 1))
  {
    var p := pieces[Square(row, col + 1)];
    var rest := RankRun(pieces, row, col + 1, 0);
    RankRunPiece(pieces, row, col, emptyCount);
    ScanFlush(emptyCount, [PieceToFen(p)] + rest, row - 1, col - emptyCount, Upto(pieces, row, col));
    ScanLetter(p, rest, row - 1, col, Upto(pieces, row, col));
    UptoPiece(pieces, row, col);
  }

  /** The eight ranks generateFen writes, from rank 8 down. */
  function Ranks(pieces: map<Square, Piece>): (ranks: seq<string>)
    ensures |ranks| == 8
  {
    seq(8, i => RankText(pieces, i + 1))
  }

  lemma {:induction false} ScanRanksOfRanks(pieces: map<Square, Piece>, row: nat)
    requires forall sq :: sq in pieces ==> OnBoard(sq)
    requires row <= 8
    ensures ScanRanks(Ranks(pieces), row, Upto(pieces, row + 1, 0)) == Ok(Upto(pieces, 9, 0))
    decreases 8 - row
  {
    if row < 8 {
      ScanRankOfRanks(pieces, row);
      ScanRanksStep(Ranks(pieces), row, Upto(pieces, row + 1, 0), Upto(pieces, row + 1, 8));
      UptoNextRow(pieces, row + 1);
      ScanRanksOfRanks(pieces, row + 1);
    }
  }

  /** The rank at index `row` is read back onto the pieces of the rows before it. */
  lemma ScanRankOfRanks(pieces: map<Square, Piece>, row: nat)
    requires row < 8
    ensures ScanRank(Ranks(pieces)[row], row, 0, Upto(pieces, row + 1, 0)) == Ok((8, Upto(pieces, row + 1, 8)))
  {
    RanksAt(pieces, row);
    ScanRankRun(pieces, row + 1, 0, 0);
  }

  lemma RanksAt(pieces: map<Square, Piece>, row: nat)
    requires row < 8
    ensures Ranks(pieces)[row] == RankText(pieces, row + 1)
  {
  }

  /** A rank that reaches exactly 8 columns hands its pieces on to the next. */
  lemma ScanRanksStep(ranks: seq<string>, row: nat, acc: map<Square, Piece>, next: map<Square, Piece>)
    requires |ranks| == 8 && row < 8
    requires ScanRank(ranks[row], row, 0, acc) == Ok((8, next))
    ensures ScanRanks(ranks, row, acc) == ScanRanks(ranks, row + 1, next)
  {
  }

  /** No two consecutive characters are both digits. */
  predicate NoAdjacentDigits(s: string) {
    forall i :: 0 <= i < |s| - 1 ==> !(IsDigit(s[i]) && IsDigit(s[i + 1]))
  }

  /** generateFen writes each rank as runs of at most one digit separated by piece letters:
      the text is readable by the scanner, covers exactly 8 columns and never has two
      digits side by side. */
  lemma RankTextShape(pieces: map<Square, Piece>, row: int)
    requires 1 <= row <= 8
    ensures ValidRun(RankText(pieces, row)) == |RankText(pieces, row)|
    ensures RankWidth(RankText(pieces, row)) == 8
    ensures NoAdjacentDigits(RankText(pieces, row))
  {
    RankTextWidth(pieces, row);
    RankRunShape(pieces, row, 0, 0);
  }

  lemma RankTextWidth(pieces: map<Square, Piece>, row: int)
    requires 1 <= row <= 8
    ensures ValidRun(RankText(pieces, row)) == |RankText(pieces, row)|
    ensures RankWidth(RankText(pieces, row)) == 8
  {
    RankRunWidth(pieces, row, 0);
  }

  lemma RankRunWidth(pieces: map<Square, Piece>, row: int, col: nat)
    requires 1 <= row <= 8 && col <= 8
    ensures ValidRun(RankRun(pieces, row, col, 0)) == |RankRun(pieces, row, col, 0)|
    ensures RankWidth(RankRun(pieces, row, col, 0)) == 8 - col
  {
    ScanRankRun(pieces, row, col, 0);
    ScanWidth(RankRun(pieces, row, col, 0), row - 1, col, Upto(pieces, row, col), Upto(pieces, row, 8));
  }

  lemma ScanWidth(s: string, row: int, col: int, pieces: map<Square, Piece>, filled: map<Square, Piece>)
    requires ScanRank(s, row, col, pieces) == Ok((8, filled))
    ensures ValidRun(s) == |s| && RankWidth(s) == 8 - col
  {
    ScanRankOutcome(s, row, col, pieces);
  }

  lemma {:induction false} RankRunShape(pieces: map<Square, Piece>, row: int, col: nat, emptyCount: nat)
    requires emptyCount <= col <= 8
    ensures NoAdjacentDigits(RankRun(pieces, row, col, emptyCount))
    decreases 8 - col
  {
    FlushShort(emptyCount);
    if col >= 8 {
    } else if Square(row, col + 1) in pieces {
      RankRunShape(pieces, row, col + 1, 0);
      var letter := PieceToFen(pieces[Square(row, col + 1)]);
      assert !IsDigit(letter);
      LetterSeparates(Flush(emptyCount), letter, RankRun(pieces, row, col + 1, 0));
    } else {
      RankRunShape(pieces, row, col + 1, emptyCount + 1);
    }
  }

  lemma FlushShort(emptyCount: nat)
    requires emptyCount <= 8
    ensures |Flush(emptyCount)| <= 1
  {
  }

  lemma LetterSeparates(run: string, letter: char, rest: string)
    requires |run| <= 1 && !IsDigit(letter) && NoAdjacentDigits(rest)
    ensures NoAdjacentDigits(run + [letter] + rest)
  {
    var s := run + [letter] + rest;
    forall i | 0 <= i < |s| - 1 ensures !(IsDigit(s[i]) && IsDigit(s[i + 1])) {
      if i > |run| {
        assert s[i] == rest[i - |run| - 1] && s[i + 1] == rest[i - |run|];
      } else if i == |run| {
        assert s[i] == letter;
      } else {
        assert s[i + 1] == letter;
      }
    }
  }

  /** A rank of generated text holds only piece letters and digits, and is never empty. */
  lemma {:induction false} RankRunChars(pieces: map<Square, Piece>, row: int, col: nat, emptyCount: nat)
    requires col < 8 || emptyCount > 0
    ensures RankRun(pieces, row, col, emptyCount) != []
    ensures forall c :: c in RankRun(pieces, row, col, emptyCount) ==> c in PIECE_LETTERS || IsDigit(c)
    decreases 8 - col
  {
    var f := Flush(emptyCount);
    assert forall c :: c in f ==> IsDigit(c) by {
      if emptyCount > 0 {
        var d := NatToString(emptyCount);
        forall c | c in d ensures IsDigit(c) {
          var i :| 0 <= i < |d| && d[i] == c;
        }
      }
    }
    if col >= 8 {
    } else if Square(row, col + 1) in pieces {
      if col + 1 < 8 {
        RankRunChars(pieces, row, col + 1, 0);
      }
    } else {
      RankRunChars(pieces, row, col + 1, emptyCount + 1);
    }
  }

  lemma JoinSnoc(parts: seq<string>, last: string, sep: char)
    requires |parts| >= 1
    ensures Join(parts + [last], sep) == Join(parts, sep) + [sep] + last
    decreases |parts|
  {
    if |parts| > 1 {
      assert (parts + [last])[1..] == parts[1..] + [last];
      JoinSnoc(parts[1..], last, sep);
    }
  }

  /** The placement loop of generateFen writes the ranks joined by '/'. */
  lemma {:induction false} PlacementJoin(pieces: map<Square, Piece>, rows: nat)
    requires 1 <= rows <= 8
    ensures PlacementUpTo(pieces, rows) == Join(Ranks(pieces)[..rows], '/') + (if rows < 8 then "/" else "")
  {
    if rows > 1 {
      PlacementJoin(pieces, rows - 1);
      JoinPrefixStep(Ranks(pieces), rows, PlacementUpTo(pieces, rows - 1), RankText(pieces, rows));
    }
  }

  lemma JoinPrefixStep(ranks: seq<string>, rows: nat, prev: string, r: string)
    requires 2 <= rows <= |ranks| && ranks[rows - 1] == r
    requires prev == Join(ranks[..rows - 1], '/') + "/"
    ensures prev + r == Join(ranks[..rows], '/')
  {
    assert ranks[..rows] == ranks[..rows - 1] + [r];
    JoinSnoc(ranks[..rows - 1], r, '/');
  }

  /** parseFen reads back the piece placement generateFen writes. */
  lemma ParsePlacementOfPlacement(pieces: map<Square, Piece>)
    requires forall sq :: sq in pieces ==> OnBoard(sq)
    ensures ParsePlacement(Placement(pieces)) == Ok(pieces)
  {
    SplitPlacement(pieces);
    UptoBounds(pieces);
    ScanRanksOfRanks(pieces, 0);
  }

  lemma SplitPlacement(pieces: map<Square, Piece>)
    ensures Split(Placement(pieces), '/') == Ranks(pieces)
  {
    var ranks := Ranks(pieces);
    PlacementIsJoin(pieces);
    RanksHaveNoSlash(pieces);
    SplitJoin(ranks, '/');
  }

  /** generateFen's placement field splits on '/' into 8 ranks, each a good rank with no
      two digits side by side. */
  lemma PlacementShape(pieces: map<Square, Piece>)
    ensures var rows := Split(Placement(pieces), '/');
            |rows| == 8 && forall i :: 0 <= i < 8 ==> GoodRank(rows[i]) && NoAdjacentDigits(rows[i])
  {
    SplitPlacement(pieces);
    forall i | 0 <= i < 8
      ensures GoodRank(Ranks(pieces)[i]) && NoAdjacentDigits(Ranks(pieces)[i])
    {
      RanksAt(pieces, i);
      RankTextShape(pieces, i + 1);
    }
  }

  lemma PlacementIsJoin(pieces: map<Square, Piece>)
    ensures Placement(pieces) == Join(Ranks(pieces), '/')
  {
    var ranks := Ranks(pieces);
    PlacementJoin(pieces, 8);
    assert ranks[..8] == ranks;
  }

  lemma RanksHaveNoSlash(pieces: map<Square, Piece>)
    ensures forall i :: 0 <= i < 8 ==> '/' !in Ranks(pieces)[i]
  {
    forall i | 0 <= i < 8 ensures '/' !in Ranks(pieces)[i] {
      RankRunChars(pieces, i + 1, 0, 0);
    }
  }

  /** The six fields generateFen writes, in order. */
  function Fields(p: Position): (fields: seq<string>)
    requires Encodable(p)
    ensures |fields| == 6
  {
    [Placement(p.pieces), ActiveColorField(p.currentPlayer), CastlingField(p.castlingRights),
     EnPassantField(p.enPassantTarget), IntToString(p.halfmoveClock), IntToString(p.fullmoveNumber)]
  }

  /** A character generateFen may write in the placement field. */
  predicate PlacementChar(c: char) {
    c in PIECE_LETTERS || IsDigit(c) || c == '/'
  }

  /** The placement text holds only piece letters, digits and '/', and is never empty. */
  lemma {:induction false} PlacementChars(pieces: map<Square, Piece>, rows: nat)
    requires 1 <= rows <= 8
    ensures PlacementUpTo(pieces, rows) != []
    ensures forall c :: c in PlacementUpTo(pieces, rows) ==> PlacementChar(c)
  {
    RankRunChars(pieces, rows, 0, 0);
    if rows > 1 {
      PlacementChars(pieces, rows - 1);
    }
  }

  /** No field generateFen writes holds a space. */
  lemma FieldsHaveNoSpace(p: Position)
    requires Encodable(p)
    ensures forall i :: 0 <= i < 6 ==> ' ' !in Fields(p)[i]
  {
    var fields := Fields(p);
    PlacementChars(p.pieces, 8);
    assert ' ' !in fields[0];
    if p.enPassantTarget.Some? {
      var name := fields[3];
      assert name[0] in FILES && IsDigit(name[1]);
      assert ' ' !in name;
    }
    assert ' ' !in fields[4] && ' ' !in fields[5];
  }

  lemma JoinSix(a: string, b: string, c: string, d: string, e: string, f: string, sep: char)
    ensures Join([a, b, c, d, e, f], sep) == a + [sep] + b + [sep] + c + [sep] + d + [sep] + e + [sep] + f
  {
    var parts := [a, b, c, d, e, f];
    assert parts[1..] == [b, c, d, e, f] && parts[1..][1..] == [c, d, e, f];
    assert parts[1..][1..][1..] == [d, e, f] && parts[1..][1..][1..][1..] == [e, f];
    assert parts[1..][1..][1..][1..][1..] == [f];
    var j4 := e + [sep] + f;
    assert Join([e, f], sep) == j4;
    var j3 := d + [sep] + j4;
    assert Join([d, e, f], sep) == j3;
    var j2 := c + [sep] + j3;
    assert Join([c, d, e, f], sep) == j2;
    var j1 := b + [sep] + j2;
    assert Join([b, c, d, e, f], sep) == j1;
    assert Join(parts, sep) == a + [sep] + j1;
  }

  /** Trimming and splitting on ' ' gives back the six fields generateFen writes. */
  lemma GenerateSplit(p: Position)
    requires Encodable(p)
    ensures Split(Trim(Generate(p)), ' ') == Fields(p)
  {
    var fields := Fields(p);
    var fen := Generate(p);
    JoinSix(fields[0], fields[1], fields[2], fields[3], fields[4], fields[5], ' ');
    assert fields == [fields[0], fields[1], fields[2], fields[3], fields[4], fields[5]];
    assert Join(fields, ' ') == fen;
    PlacementChars(p.pieces, 8);
    assert PlacementChar(fields[0][0]);
    assert fen[0] == fields[0][0];
    assert IsDigit(fields[5][|fields[5]| - 1]);
    assert fen[|fen| - 1] == fields[5][|fields[5]| - 1];
    TrimIdentity(fen);
    FieldsHaveNoSpace(p);
    SplitJoin(fields, ' ');
  }

  /** A target on the third or sixth rank is written as a name the en-passant check accepts. */
  lemma EnPassantFieldPattern(target: Square)
    requires OnBoard(target) && (target.row == 3 || target.row == 6)
    ensures EnPassantPattern(ToAlgebraic(target.row, target.col))
  {
    FileLetters();
    var name := ToAlgebraic(target.row, target.col);
    assert name[1] == DigitChar(9 - target.row);
  }

  /** The field checks once each of them passes. */
  lemma ParseStateAccepts(pieces: map<Square, Piece>, activeColor: string, castling: string, enPassant: string,
                          halfmoveClock: string, fullmoveNumber: string, halfmoves: int, fullmoves: int)
    requires activeColor == "w" || activeColor == "b"
    requires CastlingPattern(castling)
    requires enPassant == "-" || EnPassantPattern(enPassant)
    requires ParseInt(halfmoveClock) == Some(halfmoves) && halfmoves >= 0
    requires ParseInt(fullmoveNumber) == Some(fullmoves) && fullmoves >= 1
    ensures ParseState(pieces, activeColor, castling, enPassant, halfmoveClock, fullmoveNumber) ==
            Ok(Position(pieces, if activeColor == "w" then White else Black, ParseCastling(castling),
                        if enPassant == "-" then None else Some(FromAlgebraic(enPassant)), halfmoves, fullmoves))
  {
  }

  /** The checks on the last five fields accept what generateFen writes and read back
      the position's side to move, rights, target and clocks. */
  lemma ParseStateOfFields(p: Position)
    requires Encodable(p)
    ensures var f := Fields(p); ParseState(p.pieces, f[1], f[2], f[3], f[4], f[5]) == Ok(p)
  {
    var activeColor := ActiveColorField(p.currentPlayer);
    var castling := CastlingField(p.castlingRights);
    var enPassant := EnPassantField(p.enPassantTarget);
    CastlingRoundTrip(p.castlingRights);
    ParseIntToString(p.halfmoveClock);
    ParseIntToString(p.fullmoveNumber);
    if p.enPassantTarget.Some? {
      var t := p.enPassantTarget.value;
      EnPassantFieldPattern(t);
      FromToAlgebraic(t.row, t.col);
      assert |enPassant| == 2;
    }
    ParseStateAccepts(p.pieces, activeColor, castling, enPassant, IntToString(p.halfmoveClock),
                      IntToString(p.fullmoveNumber), p.halfmoveClock, p.fullmoveNumber);
  }

  /** parseFen reads back every position generateFen can write. */
  lemma ParseGenerate(p: Position)
    requires Encodable(p)
    ensures Parse(Generate(p)) == Ok(p)
  {
    GenerateSplit(p);
    ParsePlacementOfPlacement(p.pieces);
    ParseStateOfFields(p);
  }

  /** Writing a parsed position out and reading it again gives the same position, when
      its clocks are safe integers. */
  lemma ParseGenerateParse(fen: string)
    requires Parse(fen).Ok? && SafeClocks(Parse(fen).value)
    ensures Encodable(Parse(fen).value)
    ensures Parse(Generate(Parse(fen).value)) == Parse(fen)
  {
    ParseWellFormed(fen);
    ParseGenerate(Parse(fen).value);
  }

  // ======================================================= starting position

  /** The position of initialPieces with white to move, every castling right, no
      en-passant target, and the clocks at 0 and 1. */
  function StartPosition(): Position {
    Position(InitialPieces, White, CastlingRights(Rights(true, true), Rights(true, true)), None, 0, 1)
  }

  /** A row of initialPieces from column index `col` on is written letter by letter. */
  lemma {:induction false} HomeRankRunIs(row: int, col: nat, text: string)
    requires IsHomeRow(row) && col <= 8 && |text| == 8 - col
    requires forall j :: 0 <= j < |text| ==> text[j] == PieceToFen(StartPiece(row, col + 1 + j))
    ensures RankRun(InitialPieces, row, col, 0) == text
    decreases 8 - col
  {
    if col < 8 {
      InitialPieceAt(row, col + 1);
      assert text[0] == PieceToFen(StartPiece(row, col + 1));
      forall j | 0 <= j < |text| - 1 ensures text[1..][j] == PieceToFen(StartPiece(row, col + 2 + j)) {
        assert text[1..][j] == text[j + 1];
      }
      HomeRankRunIs(row, col + 1, text[1..]);
      assert text == [text[0]] + text[1..];
    }
  }

  lemma {:induction false} EmptyRankRun(row: int, col: nat, emptyCount: nat)
    requires !IsHomeRow(row) && col <= 8 && emptyCount + 8 - col == 8
    ensures RankRun(InitialPieces, row, col, emptyCount) == "8"
    decreases 8 - col
  {
    if col < 8 {
      EmptyRankRun(row, col + 1, emptyCount + 1);
    }
  }

  /** generateFen writes the ranks of initialPieces as those of STARTING_FEN. */
  lemma BlackBackRank()
    ensures RankText(InitialPieces, 1) == "rnbqkbnr"
  {
    HomeRankRunIs(1, 0, "rnbqkbnr");
  }

  lemma BlackPawnRank()
    ensures RankText(InitialPieces, 2) == "pppppppp"
  {
    HomeRankRunIs(2, 0, "pppppppp");
  }

  lemma WhitePawnRank()
    ensures RankText(InitialPieces, 7) == "PPPPPPPP"
  {
    HomeRankRunIs(7, 0, "PPPPPPPP");
  }

  lemma WhiteBackRank()
    ensures RankText(InitialPieces, 8) == "RNBQKBNR"
  {
    HomeRankRunIs(8, 0, "RNBQKBNR");
  }

  lemma JoinEight(a: string, b: string, c: string, d: string, e: string, f: string, g: string, h: string, sep: char)
    ensures Join([a, b, c, d, e, f, g, h], sep) ==
            a + [sep] + b + [sep] + c + [sep] + d + [sep] + e + [sep] + f + [sep] + g + [sep] + h
  {
    var parts := [a, b, c, d, e, f, g, h];
    assert parts[1..] == [b, c, d, e, f, g, h];
    assert parts[1..][1..] == [c, d, e, f, g, h];
    JoinSix(c, d, e, f, g, h, sep);
  }

  /** The placement field is the eight rank texts joined by '/'. */
  lemma PlacementOfRanks(pieces: map<Square, Piece>, a: string, b: string, c: string, d: string,
                         e: string, f: string, g: string, h: string)
    requires RankText(pieces, 1) == a && RankText(pieces, 2) == b && RankText(pieces, 3) == c
    requires RankText(pieces, 4) == d && RankText(pieces, 5) == e && RankText(pieces, 6) == f
    requires RankText(pieces, 7) == g && RankText(pieces, 8) == h
    ensures Placement(pieces) == a + "/" + b + "/" + c + "/" + d + "/" + e + "/" + f + "/" + g + "/" + h
  {
    var r := Ranks(pieces);
    assert r[0] == a && r[1] == b && r[2] == c && r[3] == d;
    assert r[4] == e && r[5] == f && r[6] == g && r[7] == h;
    assert r == [a, b, c, d, e, f, g, h];
    PlacementIsJoin(pieces);
    JoinEight(a, b, c, d, e, f, g, h, '/');
  }

  lemma StartingPlacementText()
    ensures "rnbqkbnr" + "/" + "pppppppp" + "/" + "8" + "/" + "8" + "/" + "8" + "/" + "8" + "/" + "PPPPPPPP" + "/" + "RNBQKBNR" ==
            "rnbqkbnr/pppppppp/8/8/8/8/PPPPPPPP/RNBQKBNR"
  {
  }

  /** generateFen writes initialPieces as the placement field of STARTING_FEN. */
  lemma StartingPlacement()
    ensures Placement(InitialPieces) == "rnbqkbnr/pppppppp/8/8/8/8/PPPPPPPP/RNBQKBNR"
  {
    BlackBackRank();
    BlackPawnRank();
    WhitePawnRank();
    WhiteBackRank();
    EmptyRankRun(3, 0, 0);
    EmptyRankRun(4, 0, 0);
    EmptyRankRun(5, 0, 0);
    EmptyRankRun(6, 0, 0);
    PlacementOfRanks(InitialPieces, "rnbqkbnr", "pppppppp", "8", "8", "8", "8", "PPPPPPPP", "RNBQKBNR");
    StartingPlacementText();
  }

  /** The fields after the placement that generateFen writes for the starting position. */
  lemma StartingFields()
    ensures ActiveColorField(White) == "w"
    ensures CastlingField(CastlingRights(Rights(true, true), Rights(true, true))) == "KQkq"
    ensures EnPassantField(None) == "-"
    ensures IntToString(0) == "0" && IntToString(1) == "1"
  {
    assert NatToString(0) == [DigitChar(0)] && NatToString(1) == [DigitChar(1)];
  }

  lemma StartingFenText(placement: string)
    requires placement == "rnbqkbnr/pppppppp/8/8/8/8/PPPPPPPP/RNBQKBNR"
    ensures placement + " " + "w" + " " + "KQkq" + " " + "-" + " " + "0" + " " + "1" == STARTING_FEN
  {
  }

  /** generateFen writes STARTING_FEN for the starting position of ChessUtils. */
  lemma GenerateStartingFen()
    ensures Generate(StartPosition()) == STARTING_FEN
  {
    StartingPlacement();
    StartingFields();
    StartingFenText(Placement(InitialPieces));
  }

  /** parseFen reads STARTING_FEN as initialPieces, white to move, every castling right,
      no en-passant target and the clocks at 0 and 1. */
  lemma ParseStartingFen()
    ensures Parse(STARTING_FEN) == Ok(StartPosition())
  {
    InitialPiecesSquares();
    GenerateStartingFen();
    ParseGenerate(StartPosition());
  }
}
