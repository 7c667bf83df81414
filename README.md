# Chess rules core, modelled in Dafny

This project models the rules core of a browser chess game written in JavaScript
(`src/utils`), and proves properties of that model. It has four parts:

- **chessUtils.js** (module `ChessUtils`): the coordinate codec between `(row, col)` and
  algebraic square names. Row 1 is rank 8 and column 1 is file `a`. The module also holds
  the board bounds test, the twelve numeric piece codes and the starting position.
- **moveGenerator.js** (module `MoveGenerator`): the pseudo-legal move generators for
  pawns, knights, bishops, rooks, queens and kings, castling included. Each generator is
  a specification function plus a method that keeps the source's loops and is proved
  equal to it. Their properties are proved in `MoveProperties`.
- **fenUtils.js** (module `FenUtils`): Forsyth-Edwards Notation, section 16.1 of the PGN
  Standard. `parseFen` validates the six fields and builds a position record;
  `generateFen` writes one back. The JavaScript string built-ins the codec relies on
  (`trim`, `split`, `parseInt`, number to text) are in module `Text`. The codec's
  properties, including the round trip, are proved in `FenProperties`.
- **chessEngine.js**: the game state of `useChessEngine`.
  - Module `EngineState` holds the state as a value and defines what each query and
    transition computes.
  - `ChessEngine.Engine` is a class whose fields are the hook's refs. Its methods keep the
    source's loops and field-by-field updates. Each method is proved to take the state to
    exactly what the `EngineState` function gives.
  - `EngineProperties` proves what those functions promise.

The model keeps the source's behaviour where it departs from the chess rules:

- **Reversed pawn attack.** `isSquareAttacked` looks for attacking pawns one row towards
  `byWhite ? -1 : 1`. That is the side a pawn moves away from, not the side it captures
  from (`EngineState.PawnAttackDirection`).
- **King steps use the pre-move board.** Squares next to the king are tested for attack
  on the board as it stands, with the king still on its square.
- **The king scan keeps the last match.** `break` leaves only the inner loop, so a king on
  a later row wins over one on an earlier row (`EngineProperties.KingScanSpec`).
- **`isCapture` is tested after the target is recomputed.** It compares the destination
  with the en-passant target after that target has been reset. The en-passant half of the
  test therefore never holds (`EngineProperties.CommitHalfmoveClock`).
- **Fixed castling row.** Castling uses row 8 for white and row 1 for black, wherever the
  king stands.

Board keys are `Square(row, col)` values rather than square names. The en-passant target
and the selection are squares too. `ChessUtils.FromToAlgebraic`, `ChessUtils.ToFromAlgebraic`
and `ChessUtils.ToAlgebraicInjective` show that square names and on-board squares
correspond one to one. The source's callbacks (`isEmpty`, `isOpponent`,
`isFriendlyPiece`, `getPiece`, `isSquareAttacked`) become function-typed parameters of
the generators. The engine passes closures over its state, as the source does.

## Model

| member | source | states |
|---|---|---|
| ChessUtils.ToAlgebraic | src/utils/chessUtils.js:8-12 | the name is the file letter `files[col-1]` followed by the rank digit `9 - row`, and is a well-formed square name |
| ChessUtils.FromAlgebraic | src/utils/chessUtils.js:14-20 | the row is `9 - rank`; for a two-character name the square is on the board exactly when the name is well formed (file a–h, rank 1–8) |
| ChessUtils.IndexOf | src/utils/chessUtils.js:17 | `indexOf` gives the first index holding the character, or -1 exactly when it is absent |
| ChessUtils.FromToAlgebraic | src/utils/chessUtils.js:8-20 | `fromAlgebraic(toAlgebraic(row, col)) == {row, col}` for every on-board coordinate |
| ChessUtils.ToFromAlgebraic | src/utils/chessUtils.js:8-20 | `toAlgebraic(fromAlgebraic(s)) == s` for every name with file a–h and rank 1–8 |
| ChessUtils.ToAlgebraicInjective | src/utils/chessUtils.js:8-12 | two distinct on-board squares never share a name |
| ChessUtils.WithinBoardIffNamed | src/utils/chessUtils.js:23 | `isWithinBoard(row, col)` holds exactly when some well-formed square name decodes to `(row, col)` |
| ChessUtils.FileLetters | src/utils/chessUtils.js:4 | the file letters are the eight consecutive letters a to h |
| ChessUtils.CodeColor | src/utils/chessUtils.js:41-59 | every code lies in 9812–9823; `isWhitePiece(code)` holds exactly for white pieces; the engine's test `code <= WHITE_PAWN` agrees with it |
| ChessUtils.WhiteBelowBlack | src/utils/chessUtils.js:41-54 | every white code is strictly below every black code |
| ChessUtils.CodeInjective | src/utils/chessUtils.js:41-54 | two pieces have the same code exactly when they are the same piece |
| ChessUtils.Opponent | src/utils/chessEngine.js:202 | the other side is never the same side |
| ChessUtils.InitialPiecesSquares | src/utils/chessUtils.js:26-38 | `initialPieces` occupies exactly the on-board squares of ranks 8, 7, 2 and 1 |
| ChessUtils.InitialPiecesPlacement | src/utils/chessUtils.js:26-38 | black stands on ranks 8–7 and white on ranks 2–1; pawns fill ranks 7 and 2; the white king is on e1 and the black king on e8 |
| ChessUtils.AllSquaresOnBoard | src/utils/chessUtils.js:23 | the 64 board squares are exactly the in-bounds coordinates |
| Text.TrimStart | src/utils/fenUtils.js:45 | the result is a suffix of the input that does not start with white space |
| Text.TrimEnd | src/utils/fenUtils.js:45 | the result is a prefix of the input that does not end with white space |
| Text.Split | src/utils/fenUtils.js:45-55 | `split` on one character gives at least one piece; no piece holds the separator; joining the pieces with it gives the input back |
| Text.SplitJoin | src/utils/fenUtils.js:45-55 | splitting a join of separator-free pieces gives the pieces back |
| Text.ParseInt | src/utils/fenUtils.js:102-108 | `parseInt` is a number exactly when a digit run follows the white space and sign; it is not negative unless the text starts with '-' |
| Text.Magnitude | src/utils/fenUtils.js:102-108 | the digit run has a non-negative value exactly when it is not empty |
| Text.NatToString | src/utils/fenUtils.js:150-166 | the decimal text of a number is a non-empty digit string whose value is the number |
| Text.IntToString | src/utils/fenUtils.js:189 | the text of an integer is digits, after '-' when negative, and ends with a digit (JavaScript writes this form below 10^21) |
| Text.ParseIntToString | src/utils/fenUtils.js:102-189 | `parseInt` reads back the text a template literal writes for every safe integer, of magnitude at most 2^53 - 1 |
| FenUtils.FenToPiece | src/utils/fenUtils.js:19-32 | `FEN_TO_PIECE` has an entry exactly for the twelve letters of `pnbrqkPNBRQK` |
| FenUtils.PieceToFen | src/utils/fenUtils.js:35-37 | `PIECE_TO_FEN` gives a piece letter that `FEN_TO_PIECE` maps back to the same piece; it is upper case exactly for white |
| FenUtils.FenToPieceToFen | src/utils/fenUtils.js:19-37 | the two tables are inverse in the other direction too |
| FenUtils.ParseFen | src/utils/fenUtils.js:44-130 | the method's result is `Parse(fen)`, the first failing check or the position record |
| FenUtils.ParseFields | src/utils/fenUtils.js:86-129 | the checks after the placement, and the record, are `ParseState` |
| FenUtils.ParsePiecePlacement | src/utils/fenUtils.js:54-84 | the rank loop is `ParsePlacement` |
| FenUtils.ScanRankText | src/utils/fenUtils.js:62-79 | the character loop with its running `col` is `ScanRank` |
| FenUtils.GeneratePlacement | src/utils/fenUtils.js:141-172 | the placement loop writes `Placement(pieces)` |
| FenUtils.AppendRank | src/utils/fenUtils.js:143-166 | the file loop with its running `emptyCount` appends the rank's text |
| FenUtils.GenerateFen | src/utils/fenUtils.js:137-190 | the method's result is `Generate(position)` |
| FenProperties.ScanRankOutcome | src/utils/fenUtils.js:61-79 | scanning a rank fails exactly at its first character that is neither 1–8 nor a piece letter, and reports that character; otherwise the column advances by the rank's width |
| FenProperties.ScanRanksOutcome | src/utils/fenUtils.js:61-84 | the rank loop succeeds exactly when every remaining rank is made of valid characters and totals exactly 8 columns |
| FenProperties.ParsePlacementRules | src/utils/fenUtils.js:55-84 | the placement parses exactly when it has 8 '/'-separated ranks, each of valid characters totalling 8 columns; another rank count is the rank-count error |
| FenProperties.ParseStateRules | src/utils/fenUtils.js:86-129 | the colour must be 'w' or 'b', castling must match the pattern, en passant must be '-' or [a-h][36], halfmove ≥ 0 and fullmove ≥ 1; the first failing check, in that order, decides the error (colour, castling, en passant, halfmove, fullmove); each castling right is the presence of its letter, and the target is null exactly for '-' |
| FenProperties.ParseRules | src/utils/fenUtils.js:44-129 | `parseFen` accepts exactly a trimmed text of 6 space-separated fields with a valid placement and valid text fields; another field count is the field-count error |
| FenProperties.ParsePlacementOnBoard | src/utils/fenUtils.js:61-84 | every piece of a parsed placement stands on a board square |
| FenProperties.ParseWellFormed | src/utils/fenUtils.js:44-129 | every position `parseFen` returns has pieces on the board, a target on rank 3 or 6 or none, halfmove ≥ 0 and fullmove ≥ 1 |
| FenProperties.EnPassantSquare | src/utils/fenUtils.js:97-126 | an accepted en-passant field names a square of rank 3 or 6 |
| FenProperties.CastlingRoundTrip | src/utils/fenUtils.js:92-183 | the castling field `generateFen` writes (K, Q, k, q in order, '-' when none) matches the pattern and parses back to the same rights |
| FenProperties.CastlingCanonical | src/utils/fenUtils.js:92-183 | every castling field the pattern accepts is exactly the field written for the rights it parses to |
| FenProperties.CastlingPatternExactly | src/utils/fenUtils.js:92-183 | the pattern accepts a field exactly when it is the in-order letters of its own rights |
| FenProperties.RankTextShape | src/utils/fenUtils.js:145-166 | each written rank holds only digits 1–8 and piece letters, totals 8 columns and has no two adjacent digits |
| FenProperties.PlacementShape | src/utils/fenUtils.js:141-172 | the written placement splits on '/' into 8 ranks, each totalling 8 columns with no two adjacent digits |
| FenProperties.PlacementIsJoin | src/utils/fenUtils.js:141-172 | the written placement is its 8 ranks joined by '/' |
| FenProperties.ParsePlacementOfPlacement | src/utils/fenUtils.js:54-172 | parsing the written placement of on-board pieces gives the same pieces |
| FenProperties.GenerateSplit | src/utils/fenUtils.js:188-189 | trimming and splitting a written FEN on ' ' gives back its six fields |
| FenProperties.ParseGenerate | src/utils/fenUtils.js:44-190 | `parseFen(generateFen(p)) == p` for every position with on-board pieces, a target on rank 3 or 6 or none, halfmove ≥ 0, fullmove ≥ 1, and both clocks at most 2^53 - 1 |
| FenProperties.ParseGenerateParse | src/utils/fenUtils.js:44-190 | writing out a parsed position whose clocks are at most 2^53 - 1 and parsing it again gives the same result |
| FenProperties.GenerateStartingFen | src/utils/fenUtils.js:16-190 | `generateFen` of the starting position is `STARTING_FEN` |
| FenProperties.ParseStartingFen | src/utils/fenUtils.js:16-130 | `parseFen(STARTING_FEN)` is the starting position with every right, no target and clocks 0 and 1 |
| FenProperties.StartingPlacement | src/utils/fenUtils.js:16-172 | the placement of `initialPieces`, with its pieces as abstract pieces, is `rnbqkbnr/pppppppp/8/8/8/8/PPPPPPPP/RNBQKBNR` |
| MoveGenerator.GetPawnMoves | src/utils/moveGenerator.js:5-40 | the pawn generator's moves are `PawnMoves`: the pushes, then the diagonal captures, then the en-passant capture |
| MoveGenerator.GetPawnPushes | src/utils/moveGenerator.js:10-19 | the push block gives `PawnPushes` |
| MoveGenerator.GetPawnCaptures | src/utils/moveGenerator.js:21-27 | the capture loop gives `PawnCaptures` |
| MoveGenerator.GetPawnEnPassant | src/utils/moveGenerator.js:29-37 | the en-passant loop gives `PawnEnPassant` |
| MoveGenerator.GetKnightMoves | src/utils/moveGenerator.js:43-59 | the knight loop gives `KnightMoves` |
| MoveGenerator.GetBishopMoves | src/utils/moveGenerator.js:62-88 | the bishop loops give `BishopMoves` |
| MoveGenerator.GetRookMoves | src/utils/moveGenerator.js:91-117 | the rook loops give `RookMoves` |
| MoveGenerator.SlideAlong | src/utils/moveGenerator.js:68-114 | the loop over directions gives the rays one after another |
| MoveGenerator.WalkRay | src/utils/moveGenerator.js:69-113 | the `while (true)` loop of one direction gives `Ray` |
| MoveGenerator.GetQueenMoves | src/utils/moveGenerator.js:120-125 | the queen generator's moves are `QueenMoves` |
| MoveGenerator.QueenIsBishopThenRook | src/utils/moveGenerator.js:120-125 | the queen's moves are exactly the bishop's moves followed by the rook's moves |
| MoveGenerator.GetKingMoves | src/utils/moveGenerator.js:128-211 | the king generator's moves are `KingMoves`: the steps, then castling |
| MoveGenerator.GetKingSteps | src/utils/moveGenerator.js:146-157 | the step loop gives `KingSteps` |
| MoveGenerator.GetCastlingMoves | src/utils/moveGenerator.js:159-208 | the castling block gives `CastlingMoves` |
| MoveGenerator.SlidingAppend | src/utils/moveGenerator.js:68-85 | the rays of two lists of directions, one after the other, are the rays of the joined list |
| MoveProperties.PawnPushRules | src/utils/moveGenerator.js:7-19 | there is a single push only when the square ahead is on the board and empty. A double push needs the start row (7 white, 2 black) and both squares empty, and comes only with the single push |
| MoveProperties.PawnCaptureRule | src/utils/moveGenerator.js:21-27 | a diagonal capture is offered exactly onto an on-board square one row ahead in an adjacent column where `isOpponent` holds |
| MoveProperties.EnPassantRule | src/utils/moveGenerator.js:29-37 | the target is offered exactly when the pawn is on row `epRow - direction` in a column next to the target's |
| MoveProperties.PawnMovesOnBoard | src/utils/moveGenerator.js:12-33 | every pawn move is on the board, one or two rows ahead |
| MoveProperties.KnightMovesExactly | src/utils/moveGenerator.js:43-59 | the knight's moves are exactly the on-board leap squares without a friendly piece, at most 8 |
| MoveProperties.RayPath | src/utils/moveGenerator.js:68-85 | a ray starts at distance 1 and each next square is one step further in its direction |
| MoveProperties.RayContents | src/utils/moveGenerator.js:72-83 | every ray square is on the board and holds no friendly piece. Every square before the last is empty, so nothing lies beyond the first occupied square |
| MoveProperties.RayEnd | src/utils/moveGenerator.js:72-83 | a ray ends at an occupied square, or just before the edge or a friendly piece |
| MoveProperties.SlidingMovesSafe | src/utils/moveGenerator.js:62-117 | every bishop or rook move is on the board, not friendly and not the start square |
| MoveProperties.QueenMovesMembers | src/utils/moveGenerator.js:120-125 | a square is a queen move exactly when it is a bishop move or a rook move |
| MoveProperties.KingStepsExactly | src/utils/moveGenerator.js:146-157 | the steps are exactly the adjacent on-board squares that are not friendly and that the other side does not attack on the current board |
| MoveProperties.CastlingRules | src/utils/moveGenerator.js:159-208 | castling moves are only column 7 or 3 of the fixed row (8 white, 1 black). Column 7 needs the kingside right, unmoved king and h-rook squares, the king not attacked, columns 6–7 empty and unattacked, and an own rook on column 8. Column 3 needs the queenside right, unmoved king and a-rook squares, the king not attacked, columns 2–4 empty, 3–4 unattacked, and an own rook on column 1 |
| MoveProperties.KingMovesOnBoard | src/utils/moveGenerator.js:150-162 | every king move is on the board |
| EngineState.FirstKingColumn | src/utils/chessEngine.js:185-195 | the inner scan reports a column from `col` to 8 that holds the king |
| EngineState.PossibleMovesSelected | src/utils/chessEngine.js:206-211 | a state with a possible move has a selected piece |
| EngineProperties.IsOpponentColors | src/utils/chessEngine.js:47-60 | `isOpponent` holds exactly when a piece is selected and the target holds a piece of the other colour |
| EngineProperties.IsFriendlyColors | src/utils/chessEngine.js:63-72 | `isFriendlyPiece` holds exactly when the target holds a piece of the given piece's colour |
| EngineProperties.SquareAttackedIff | src/utils/chessEngine.js:75-178 | a square is attacked exactly when one of these holds: a pawn at `(row + (byWhite ? -1 : 1), col ± 1)`; a knight a leap away; a bishop or queen first on a diagonal ray; a rook or queen first on a straight ray; a king adjacent |
| EngineProperties.KingScanSpec | src/utils/chessEngine.js:183-197 | the scan finds nothing exactly when no king is on the rows. Otherwise it reports a king square, and every other king is on an earlier row or further right on the same row |
| EngineProperties.KingInCheckCases | src/utils/chessEngine.js:181-203 | with no king of that colour `isKingInCheck` is false. Otherwise it is whether the other side attacks the square of the last-found king |
| EngineProperties.PossibleMovesShape | src/utils/chessEngine.js:206-250 | every possible move of a valid state is on the board and differs from the selected square |
| EngineProperties.PawnMoveRows | src/utils/moveGenerator.js:7-37 | a pawn move is one row ahead, or two rows ahead from the start row in the same column |
| EngineProperties.DoublePushTarget | src/utils/chessEngine.js:340-346 | a possible two-row pawn move is the start-row push, and sets the target to the square passed over, on row 6 for white or 3 for black |
| EngineProperties.CommitPlacement | src/utils/chessEngine.js:265-352 | after a move the destination holds the moving piece and the source is empty. Every other square is unchanged except the en-passant victim and the two castling rook squares |
| EngineProperties.EnPassantCommit | src/utils/chessEngine.js:286-308 | a pawn landing on the target removes the pawn at `(row + (white ? 1 : -1), col)` and appends it to the captured list of its colour |
| EngineProperties.RegularCaptureCommit | src/utils/chessEngine.js:276-284 | a piece on the destination goes to `capturedByWhite` when white and to `capturedByBlack` when black |
| EngineProperties.CastlingCommit | src/utils/chessEngine.js:310-323 | on a king move of two columns, whatever stood on the rook's corner moves to column 6 or 4 of the destination row, and the corner is emptied |
| EngineProperties.KingSideCastleCommit | src/utils/chessEngine.js:310-351 | castling from column 5 to 7 leaves the king on column 7, the rook from column 8 on 6, and columns 5 and 8 empty |
| EngineProperties.QueenSideCastleCommit | src/utils/chessEngine.js:310-351 | castling from column 5 to 3 leaves the king on column 3, the rook from column 1 on 4, and columns 5 and 1 empty |
| EngineProperties.CommitBookkeeping | src/utils/chessEngine.js:272-375 | after a move nothing is selected and the side to move flips. The fullmove number grows by one exactly when black moved. Both squares are marked as moved, and `inCheck` is recomputed for both colours on the new board |
| EngineProperties.CommitHalfmoveClock | src/utils/chessEngine.js:341-367 | the recomputed target is never the destination. So the clock becomes 0 exactly on a pawn move or when the destination was occupied, and otherwise grows by one |
| EngineProperties.CommitEnPassantTarget | src/utils/chessEngine.js:340-346 | the target is set exactly after a pawn moves two rows, to the square between source and destination |
| EngineProperties.CommitRightsRules | src/utils/chessEngine.js:325-338 | rights only go from true to false. A king move clears both of its colour's rights; a rook leaving a1, h1, a8 or h8 clears the matching right; other moves keep them all |
| EngineProperties.ClickSelects | src/utils/chessEngine.js:379-400 | a click that is not a possible destination changes only the selection. An opponent's piece changes nothing, an own piece toggles the selection, an empty square clears it |
| EngineProperties.ClickCommits | src/utils/chessEngine.js:263-264 | a click on a possible destination of the selected piece commits the move |
| EngineProperties.ClickValid | src/utils/chessEngine.js:258-401 | a click keeps pieces, selection and target on the board, the target on rank 3 or 6, halfmove ≥ 0 and fullmove ≥ 1 |
| EngineProperties.MovedFromRightsMembers | src/utils/chessEngine.js:425-443 | e1/e8 are marked as moved when either right of that colour is missing; h1/a1/h8/a8 when the matching right is missing; nothing else is marked |
| EngineProperties.LoadFenRejects | src/utils/chessEngine.js:409-453 | when `parseFen` throws, `loadFen` returns false and changes no state |
| EngineProperties.LoadFenInstalls | src/utils/chessEngine.js:409-449 | on success `loadFen` returns true and installs the parsed fields (for abstract pieces: see the piece encodings under Left out). Selection and captured lists are empty, only the squares of missing rights are marked moved, and the check flags are recomputed |
| EngineProperties.LoadFenValid | src/utils/chessEngine.js:409-453 | `loadFen` keeps the state valid |
| EngineProperties.ReloadCurrentFen | src/utils/chessEngine.js:409-466 | loading the FEN `getCurrentFen` writes restores the board, side to move, rights, target and both counters, while both counters are at most 2^53 - 1 |
| EngineProperties.ResetGameState | src/utils/chessEngine.js:404-406 | for abstract pieces, `resetGame` installs `initialPieces` with white to move, every right, no target, clocks 0 and 1, and no moved squares |
| ChessEngine.Engine.constructor | src/utils/chessEngine.js:15-33 | the refs start at `initialPieces`, no selection, white to move, empty captured lists, no target, every right, no moved squares, no check, clocks 0 and 1 |
| ChessEngine.Engine.IsSquareAttacked | src/utils/chessEngine.js:75-178 | the five scans return `SquareAttacked` and change nothing |
| ChessEngine.Engine.ScanPawnAttack | src/utils/chessEngine.js:76-91 | the pawn loop returns `PawnAttack` |
| ChessEngine.Engine.ScanLeaperAttack | src/utils/chessEngine.js:93-175 | the knight and king loops return `LeaperAttack` |
| ChessEngine.Engine.ScanSliderAttack | src/utils/chessEngine.js:113-155 | the diagonal and straight loops return `SliderAttack` |
| ChessEngine.Engine.FirstPieceAlong | src/utils/chessEngine.js:116-154 | the `while (true)` loop of one ray finds the first piece before the edge |
| ChessEngine.Engine.IsKingInCheck | src/utils/chessEngine.js:181-203 | the nested scan and the attack test return `KingInCheck` and change nothing |
| ChessEngine.Engine.FindKingInRow | src/utils/chessEngine.js:185-196 | the inner loop returns the first column of the row holding the king, or 0 |
| ChessEngine.Engine.HandleSquareClick | src/utils/chessEngine.js:258-401 | the new state is `Click` of the old one, and the state stays valid |
| ChessEngine.Engine.MovePiece | src/utils/chessEngine.js:264-377 | the commit steps, in the source's order, give `Commit` of the old state |
| ChessEngine.Engine.MarkMoved | src/utils/chessEngine.js:272-274 | only `pieceHasMoved` changes, gaining the source and destination |
| ChessEngine.Engine.RecordCaptures | src/utils/chessEngine.js:276-308 | the captured lists become `CommitCaptures`; the returned board copy has the en-passant victim removed |
| ChessEngine.Engine.UpdateCastlingRights | src/utils/chessEngine.js:325-338 | only the castling rights change, to `CommitRights` |
| ChessEngine.Engine.SetEnPassantTarget | src/utils/chessEngine.js:340-346 | only the target changes, to `CommitTarget` |
| ChessEngine.Engine.PlacePieces | src/utils/chessEngine.js:352-353 | only the board and the selection change |
| ChessEngine.Engine.UpdateCheck | src/utils/chessEngine.js:355-447 | only `inCheck` changes, to the check status of both colours |
| ChessEngine.Engine.AdvanceTurn | src/utils/chessEngine.js:363-375 | only the halfmove clock, the side to move and the fullmove number change |
| ChessEngine.Engine.LoadFen | src/utils/chessEngine.js:409-453 | the new state and the result are `LoadFen` of the old state, and the state stays valid |
| ChessEngine.Engine.InstallPosition | src/utils/chessEngine.js:414-443 | the field writes of `loadFen`, before the check flags |
| ChessEngine.Engine.MovedSquares | src/utils/chessEngine.js:425-443 | the synthesised `pieceHasMoved` entries are `MovedFromRights` |
| ChessEngine.Engine.ResetGame | src/utils/chessEngine.js:404-406 | the new state is that of loading `STARTING_FEN` |
| ChessEngine.Engine.GetCurrentFen | src/utils/chessEngine.js:456-466 | the result is `generateFen` of the current position record |

## Left out

- soundUtils.js, the Electron main and preload scripts, `src/main.js` and the build
  configuration are not part of this model. They are audio, window and build plumbing
  with no chess rules.
- Vue reactivity (`ref`, `computed`) is not modelled. The refs are plain fields of
  `ChessEngine.Engine`, and `possibleMoves` is the function `EngineState.PossibleMoves`
  of the state.
- `isPossibleMove` and `isSelected` are not separate members. `isPossibleMove` is the
  membership test `Square(row, col) in PossibleMoves(s)` inside `Click`. `isSelected` is a
  comparison of the selection.
- Piece encodings: `getPieceCode` and the UI helper `isWhitePiece` (chessEngine.js:469-475)
  strip non-digits from HTML-entity strings. `initialPieces` holds entity strings,
  `parseFen` stores bare numbers, and `PIECE_TO_FEN` is keyed by numeric strings. All
  three are one abstract `Piece(color, kind)` here, with its code given by `ChessUtils.Code`.
  The model therefore does not capture these effects of the mix:
  - `getPieceCode` calls `.replace` on the bare numbers `parseFen` stores, which throws.
    So `loadFen` of a FEN with any piece writes every field, then throws in
    `isKingInCheck`; the catch returns false and `inCheck` keeps its old value.
    `resetGame` behaves the same. `EngineProperties.LoadFenInstalls` and
    `EngineProperties.ResetGameState` state the result for abstract pieces: true, with
    the check flags recomputed.
  - Move generation and the attack test call `getPieceCode` on the board's pieces too,
    so after such a load they throw as well.
  - `generateFen` of the entity strings in `initialPieces` writes `undefined` for each
    piece, since `PIECE_TO_FEN` has no entity-string key.
    `FenProperties.StartingPlacement` and `FenProperties.GenerateStartingFen` state the
    text for abstract pieces.
- Board keys are squares, not square names. Off-board coordinates give names that are
  never board keys, so a click or lookup off the board sees an empty square, as in the
  source.
- The castling rook hop assigns `undefined` when the rook's corner is empty. The model
  removes that key, since every reader tests truthiness.
- The slider and attack rays advance the square one step at a time instead of
  computing `selectedRow + rowOffset * distance`. The squares visited are the same.
- `handleSquareClick` and `loadFen` are split into helper methods
  (`MarkMoved`, `RecordCaptures`, …). The helpers run in the source's order, and each
  writes the fields the source writes at that point.
- `ChessEngine.Engine.LoadFen` does not model the `try`/`catch` or `console.error`.
  A rejected FEN is the `Err` result of `FenUtils.Parse`.
- `parseInt` is modelled as leading white space, an optional sign, then the leading run
  of decimal digits, or of hexadecimal digits after `0x`/`0X`. Trailing text is ignored.
  JavaScript's `-0` is not distinguished from 0.
- JavaScript numbers are doubles; the model's counters are unbounded integers. The model
  does not capture what happens beyond 2^53 - 1 (`Text.MAX_SAFE_INTEGER`):
  - `parseInt` rounds a longer digit run to the nearest double; `Text.ParseInt` keeps it exact.
  - `halfmoveClock.value++` and `fullmoveNumber.value++` stop growing at 2^53; the model
    keeps adding one.
  - A template literal writes a number of 10^21 or more in exponent form (`1e+21`),
    which `parseInt` reads back as 1.
- Text.IntToString: writes every integer as plain decimal digits, which is what JavaScript
  writes only below 10^21 in magnitude.
- FenProperties.ParseGenerate, FenProperties.ParseGenerateParse and
  EngineProperties.ReloadCurrentFen: state the round trip only for clocks of at most
  2^53 - 1. Above that bound the source's clocks are doubles (`parseInt` rounds, `++`
  stops growing) that the model's exact integers do not follow. Between 2^53 and 10^21
  the source's round trip still holds for the double values it can hold, and this is not
  stated here. From 10^21 on the source's round trip fails outright, because the number
  is written as `1e+21`.
- `FenUtils.Generate` requires an en-passant target on the board. The source writes any
  string it is given, but every target the engine holds is a board square
  (`EngineState.ValidState`).
- Checkmate, stalemate, promotion and filtering moves that leave one's own king in check
  are not in the source, and are not added.
