# A verified model of the chaiba chess rules engine

This project models the chess rules engine of chaiba (`src/chess/`) in Dafny. It covers three layers.

- **Board** (`src/chess/types.ts`): a flat board of 64 optional pieces, index `rank * 8 + file`. Rank 0 is White's back rank. The layer also holds the standard starting layout.
- **Rules** (`src/chess/rules.ts`): the pseudo-legal move generator of each piece kind and the attack test. It also holds the check-safety filter `getLegalMoves`, which plays each candidate on a copy of the board and rejects it if the mover's king is then attacked, and the predicates check, checkmate and stalemate. Piece movement follows Article 3 of the FIDE Laws of Chess: 3.7 for pawns and en passant, 3.8 for the king and castling.
- **Engine session** (`src/chess/engine.ts`): the `ChessEngine` class, which owns a position and an append-only history of move records. Its operations are:
  - the move transition `applyMoveToState`;
  - FEN export and import, `getFEN`/`setFEN`, as in section 16.1 of the PGN Standard;
  - UCI moves, `moveUCI`;
  - SAN parsing and writing, `moveSAN`/`getSAN`, as in section 8.2.3 of the PGN Standard, with disambiguation as in 8.2.3.4 and the check and mate suffix as in 8.2.3.6;
  - the Chess960 back-rank generator.

Modules follow the source:

| module | file | source |
|---|---|---|
| `Wrappers` | `wrappers.dfy` | `Option`, `Result` and `Outcome` (success or an error) |
| `Types` | `types.dfy` | `types.ts` |
| `Squares` | `squares.dfy` | the square helpers of `rules.ts` |
| `Attacks` | `attacks.dfy` | `isSquareAttacked` |
| `Generators` | `generators.dfy` | the pseudo-legal generators |
| `Legality` | `legality.dfy` | `getLegalMoves` and the check predicates |
| `Notation` | `notation.dfy` | the square, piece and promotion-letter codecs of `engine.ts` and JavaScript's `parseInt` |
| `Transition` | `transition.dfy` | `applyMoveToState` |
| `Moves` | `moves.dfy` | the move record and `moveUCI`'s checks |
| `Fen` | `fen.dfy` | `getFEN`/`setFEN` |
| `San` | `san.dfy` | `moveSAN`, `getSAN`, `getDisambiguation` and `appendCheckSuffix` |
| `Chess960` | `chess960.dfy` | `generateChess960State` |
| `Engine` | `engine.dfy` | the `ChessEngine` class |

Every loop of the source is a Dafny `method` with a `while` or `for` loop. Each such method is proved equal to a specification function of its inputs, for example `Legality.GetLegalMoves` yields `LegalTargets(st, from)`. The properties the source promises are then proved as lemmas about those functions.

The board copies that `getLegalMoves` and `applyMoveToState` edit in place are `array`s. So are the board that `setFEN` fills and the slot array of the Chess960 generator.

`ChessEngine` is a class with the fields `state` and `history`. Its methods state the whole new state of both fields. They keep the invariant that the history is chained: each record is a move `moveUCI` accepted, it starts from the position the record before it produced, and the last record produced the current position.

## Model

| member | source | states |
|---|---|---|
| Types.StartingPosition | src/chess/types.ts:12-27 | the loops build exactly the standard starting board |
| Types.StartingBoardLayout | src/chess/types.ts:12-27 | the starting board has 64 squares: back rank R,N,B,Q,K,B,N,R on 0-7, white pawns on 8-15, 16-47 empty, black pawns on 48-55, and Black's back rank on 56-63 mirrors White's file by file |
| Types.StartingGameState | src/chess/engine.ts:9 | the starting game state has White to move, all four castling rights, no en-passant square, halfmove 0 and fullmove 1 |
| Squares.ToIndex | src/chess/rules.ts:7-10 | on-board coordinates give an index in 0..63 |
| Squares.IndexCoordinates | src/chess/rules.ts:7-10 | fileOf and rankOf recover the coordinates toIndex was given |
| Squares.SquareCoordinates | src/chess/rules.ts:7-10 | every square's coordinates are in bounds and toIndex maps them back to the square |
| Squares.Line | src/chess/rules.ts:81-92 | the ray from a square in a unit direction is non-empty exactly when the square is on the board |
| Squares.FirstOccupied | src/chess/rules.ts:81-92 | the index of the first occupied square of a ray: every square before it is empty, and the square at it is occupied |
| Attacks.StepScan | src/chess/rules.ts:177-208 | the knight and king scans report a hit exactly when an offset lands on such a piece of the attacker |
| Attacks.PawnScan | src/chess/rules.ts:188-197 | the pawn scan reports a hit exactly when an attacker pawn sits one rank behind, in the attacker's direction, on an adjacent file |
| Attacks.LineScan | src/chess/rules.ts:211-239 | one direction's walk reports a hit exactly when the first occupied square holds the attacker's slider of that kind or its queen |
| Attacks.SlideScan | src/chess/rules.ts:211-239 | the walk over the diagonals or the straights reports a hit exactly when one of the directions does |
| Attacks.IsSquareAttacked | src/chess/rules.ts:172-242 | isSquareAttacked returns the attack predicate |
| Attacks.AttackedCases | src/chess/rules.ts:172-242 | a square is attacked exactly when one of the five tests hits: knight, pawn, king, diagonal slider, straight slider |
| Attacks.StepAttackWitness | src/chess/rules.ts:177-208 | a step attack means some single offset lands on the attacking piece |
| Attacks.SlideAttackWitness | src/chess/rules.ts:211-239 | a sliding attack means some single direction hits |
| Attacks.SlideHitFirstOccupied | src/chess/rules.ts:211-239 | a direction hits exactly when the first occupied square on its line is the attacker's slider or queen |
| Generators.StepMoves | src/chess/rules.ts:57-72 | the offset loop yields the step targets, in offset order |
| Generators.KnightMoves | src/chess/rules.ts:57-72 | getKnightMoves yields the knight's step targets |
| Generators.RayMoves | src/chess/rules.ts:81-92 | one ray's walk yields that direction's ray |
| Generators.SlideMoves | src/chess/rules.ts:74-95 | slideMoves concatenates the rays of the given directions |
| Generators.BishopMoves | src/chess/rules.ts:97-99 | getBishopMoves yields the diagonal rays |
| Generators.RookMoves | src/chess/rules.ts:101-103 | getRookMoves yields the straight rays |
| Generators.QueenMoves | src/chess/rules.ts:105-110 | getQueenMoves yields the bishop targets followed by the rook targets |
| Generators.PawnPushMoves | src/chess/rules.ts:26-37 | the push part yields the pawn's single and double pushes |
| Generators.PawnCaptureMove | src/chess/rules.ts:40-52 | one capture side yields its diagonal square when enemy-occupied or the en-passant square |
| Generators.PawnMoves | src/chess/rules.ts:16-55 | getPawnMoves yields the pushes followed by the captures |
| Generators.KingsideCastle | src/chess/rules.ts:139-148 | the kingside test holds exactly when the right is set, f and g are empty, and f and g are not attacked |
| Generators.QueensideCastle | src/chess/rules.ts:151-161 | the queenside test holds exactly when the right is set, d, c and b are empty, and d and c are not attacked (b may be attacked) |
| Generators.CastlingMoves | src/chess/rules.ts:135-161 | castling targets are offered only from file 4 of the home rank with the king not attacked: g, then c |
| Generators.KingMoves | src/chess/rules.ts:112-166 | getKingMoves yields the king steps followed by the castling targets |
| Generators.PseudoLegalMoves | src/chess/rules.ts:284-302 | nothing from an empty square; otherwise the generator of the piece's kind |
| Generators.StepTargetsMembers | src/chess/rules.ts:57-72 | a square is a step target exactly when it is empty or enemy-held and some offset lands on it without leaving the board |
| Generators.RayUpToBlocker | src/chess/rules.ts:81-92 | a ray is its line cut at the first occupied square, which is kept exactly when it holds an enemy piece |
| Generators.RayEnterable | src/chess/rules.ts:81-92 | no ray target holds a friendly piece |
| Generators.SlideTargetsEnterable | src/chess/rules.ts:74-95 | no sliding target holds a friendly piece |
| Generators.PawnTargetsMembers | src/chess/rules.ts:16-55 | a square is a pawn target exactly when it is a legal push or a diagonal capture (enemy piece or en-passant square) |
| Generators.PawnCaptureMember | src/chess/rules.ts:40-52 | a capture target is exactly the forward diagonal square on the board holding an enemy piece or equal to the en-passant square |
| Generators.PawnDoubleStep | src/chess/rules.ts:26-37 | the double step is offered exactly from the start rank with both squares ahead empty |
| Generators.KingTargetsMembers | src/chess/rules.ts:112-166 | a king target is a one-square step to an empty or enemy square, or g/c with the castling conditions met |
| Generators.CastlingTargetShape | src/chess/rules.ts:135-161 | each castling target is g with the kingside conditions or c with the queenside ones, two files from the king |
| Generators.KingJumpIsCastling | src/chess/rules.ts:112-166 | a king target two files away is exactly a castling target, and its index distance matches its file distance |
| Generators.PseudoTargetsEnterable | src/chess/rules.ts:16-166 | no pseudo-legal target holds a friendly piece, except a pawn's en-passant square |
| Legality.FindKing | src/chess/rules.ts:341-348 | the scan finds the first square holding the king of the colour, or -1 if there is none |
| Legality.ClearEnPassantVictim | src/chess/rules.ts:319-322 | the simulation removes the pawn taken en passant |
| Legality.MoveCastlingRook | src/chess/rules.ts:325-338 | the simulation moves the rook of a castling king |
| Legality.SafeMove | src/chess/rules.ts:314-351 | the simulated move leaves the mover with a king that is not attacked |
| Legality.GetLegalMoves | src/chess/rules.ts:304-353 | getLegalMoves yields the pseudo-legal targets whose simulation is safe, and nothing from an empty square |
| Legality.SafeTargetsMembers | src/chess/rules.ts:310-351 | the filter keeps exactly the safe candidates |
| Legality.LegalTargetsMembers | src/chess/rules.ts:304-353 | a legal target is exactly a pseudo-legal target after whose simulation the mover's king exists and is not attacked |
| Legality.LegalTargetsEnterable | src/chess/rules.ts:304-353 | no legal target holds a friendly piece, except a pawn's en-passant square |
| Legality.IsInCheck | src/chess/rules.ts:248-259 | isInCheck is true exactly when the side has a king and it is attacked |
| Legality.HasAnyLegalMove | src/chess/rules.ts:261-270 | the scan returns whether some piece of the colour has a legal move |
| Legality.HasLegalMoveWitness | src/chess/rules.ts:261-270 | having a legal move means some square holds a piece of the colour with a non-empty legal list |
| Legality.IsCheckmate | src/chess/rules.ts:272-274 | checkmate is check and no legal move |
| Legality.IsStalemate | src/chess/rules.ts:276-278 | stalemate is no check and no legal move |
| Legality.MateAndStalemateExclusive | src/chess/rules.ts:272-278 | checkmate and stalemate are never both true, and checkmate implies check |
| Notation.SquareName | src/chess/engine.ts:32-36 | squareToAlgebraic writes a file letter a-h and a rank digit 1-8 |
| Notation.AlgebraicToSquare | src/chess/engine.ts:38-42 | algebraicToSquare reads the file from the letter and the rank from the digit |
| Notation.SquareNameRoundTrip | src/chess/engine.ts:32-42 | reading a square's name gives the square back |
| Notation.SquareNameInverse | src/chess/engine.ts:32-42 | every two-character square name is the name of the square it reads as |
| Notation.SquareNameInjective | src/chess/engine.ts:32-36 | distinct squares have distinct names |
| Notation.FenCharToPiece | src/chess/engine.ts:57-74 | a FEN letter is read as a piece exactly when it is one of k q r b n p in either case |
| Notation.PieceCharRoundTrip | src/chess/engine.ts:44-74 | reading a piece's FEN letter gives the piece back |
| Notation.FenCharInverse | src/chess/engine.ts:44-74 | every letter that reads as a piece is that piece's letter, one of KQRBNPkqrbnp |
| Notation.PieceCharInjective | src/chess/engine.ts:44-55 | distinct pieces have distinct FEN letters |
| Notation.SanPrefix | src/chess/engine.ts:91-101 | the SAN piece prefix is one letter, and empty exactly for a pawn |
| Notation.SanPrefixRoundTrip | src/chess/engine.ts:91-122 | sanPrefixToPieceType inverts the prefix of every piece but the pawn, and only the prefix reads as the kind |
| Notation.PromotionCharToKind | src/chess/engine.ts:103-111 | a promotion letter reads only as a queen, rook, bishop or knight |
| Notation.PromotionSan | src/chess/engine.ts:124-134 | the SAN promotion letter is one letter, and empty exactly for king and pawn |
| Notation.PromotionLetterRoundTrip | src/chess/engine.ts:103-134 | the upper-case SAN letter and the lower-case UCI letter of each promotion kind read back as that kind |
| Notation.NatString | src/chess/engine.ts:361 | a counter is written as a non-empty run of digits without leading zeros |
| Notation.ParseInt | src/chess/engine.ts:431-440 | parseInt returns a negative value only for text starting with '-' |
| Notation.ParseNatString | src/chess/engine.ts:431-440 | parseInt reads a written counter back as the same number |
| Notation.ParseIntRejects | src/chess/engine.ts:431-440 | parseInt gives NaN for empty text and for text that starts with neither a digit nor a sign |
| Transition.MoveCastledRook | src/chess/engine.ts:161-178 | the rook of a castling king moves from h to f or from a to d |
| Transition.UpdateRights | src/chess/engine.ts:181-201 | the castling-rights update computes the rights after the move |
| Transition.ApplyMoveToState | src/chess/engine.ts:140-229 | applyMoveToState computes the next position |
| Transition.PseudoTargetsApplicable | src/chess/rules.ts:26-37 | every pseudo-legal move meets applyMoveToState's precondition: a pawn's 16-square move goes forward |
| Transition.BoardAfterMove | src/chess/engine.ts:151-178 | the target holds the mover, or the promotion piece; the origin is emptied; every square not touched by en passant or castling is unchanged |
| Transition.CastlingMovesRook | src/chess/engine.ts:161-178 | after a two-file king move, the rook stands next to the king on the inner side and its corner is empty |
| Transition.EnPassantRemovesVictim | src/chess/engine.ts:151-154 | a pawn moving to the en-passant square removes the pawn behind it |
| Transition.RightsAfterMove | src/chess/engine.ts:181-201 | rights only go from true to false; a king move clears its side's two rights; a rook leaving, or captured on, 0/7/56/63 clears that corner's right; nothing else clears one |
| Transition.CountersAfterMove | src/chess/engine.ts:214-226 | the side to move flips; halfmove resets exactly on a pawn move or capture and otherwise adds 1; fullmove goes up exactly when Black moved |
| Transition.TwoPlies | src/chess/engine.ts:221-226 | two moves from White's turn return to White with the move number one higher |
| Transition.EnPassantAfterMove | src/chess/engine.ts:204-211 | an en-passant square is set exactly after a pawn's 16-square move, and it is the square the pawn passed over |
| Transition.SimulationMatchesApply | src/chess/rules.ts:314-338 | for every pseudo-legal move, getLegalMoves's simulation agrees with applyMoveToState's board on every square except the target, where both hold a piece of the mover |
| Transition.SimulationIsApply | src/chess/rules.ts:314-338 | without a promotion, the simulated board is exactly the board after the move |
| Moves.LegalApplicable | src/chess/engine.ts:484-511 | every legal move can be passed to applyMoveToState |
| Moves.LegalTable | src/chess/rules.ts:304-353 | the legal-move table has one entry per square |
| Moves.LegalTableAt | src/chess/rules.ts:304-353 | each entry of the table is getLegalMoves of that square |
| Moves.ParseUci | src/chess/engine.ts:459-467 | a UCI string is parsed exactly when it is two square names and an optional promotion letter |
| Moves.PlayUci | src/chess/engine.ts:457-527 | an accepted UCI move yields a legal record whose stateBefore is the position it was played on, with the squares and promotion the text names |
| Moves.CheckUci | src/chess/engine.ts:459-508 | moveUCI's checks and record building produce PlayUci's outcome |
| Moves.PlayUciErrors | src/chess/engine.ts:459-487 | the errors come in order and each holds exactly when its condition fails first: bad format, no piece, wrong turn, target not legal; otherwise the move is legal and its record is built |
| Moves.ParseUciOf | src/chess/engine.ts:459-467 | the UCI text of a move parses back to its squares and readable promotion |
| Moves.ParseUciInverse | src/chess/engine.ts:459-467 | every parsable UCI string is the text of the move it parses as |
| Moves.PlayUciOf | src/chess/engine.ts:457-527 | every legal move, written as UCI, is accepted and recorded as that move |
| Moves.PlayUciKeepsKingSafe | src/chess/engine.ts:484-511 | after an accepted move without promotion, the mover has a king and is not in check |
| Moves.RecordFlags | src/chess/engine.ts:490-508 | a record names the moving piece and the side to move; captured is set exactly when the target was occupied or a pawn took en passant; the castle flags hold exactly for the king's e to g and e to c moves |
| Fen.Tokens | src/chess/engine.ts:369-372 | the field split yields non-empty fields without blanks |
| Fen.SplitOn | src/chess/engine.ts:377 | a split yields at least one part |
| Fen.DecodeEnPassant | src/chess/engine.ts:422-428 | an accepted en-passant field names a square on rank 3 or 6 |
| Fen.DecodeCounter | src/chess/engine.ts:431-440 | an accepted counter is at least the field's minimum (0 for halfmove, 1 for fullmove) |
| Fen.DecodeFen | src/chess/engine.ts:368-451 | every state setFEN accepts has a positive move number and an en-passant square on rank 3 or 6 |
| Fen.TokensJoin | src/chess/engine.ts:361-372 | splitting fields joined with blanks gives the fields back |
| Fen.SplitJoin | src/chess/engine.ts:345-377 | splitting ranks joined with '/' gives the ranks back |
| Fen.RankRoundTrip | src/chess/engine.ts:326-402 | setFEN reads each rank string getFEN writes as that rank's squares |
| Fen.PlacementRoundTrip | src/chess/engine.ts:326-402 | setFEN reads getFEN's placement field as the same board |
| Fen.ColorRoundTrip | src/chess/engine.ts:348-408 | the colour field reads back as the side to move |
| Fen.CastlingRoundTrip | src/chess/engine.ts:351-419 | the castling field reads back as the same rights |
| Fen.EnPassantRoundTrip | src/chess/engine.ts:359-428 | the en-passant field of a square on rank 3 or 6, or of none, reads back as that |
| Fen.CounterRoundTrip | src/chess/engine.ts:361-440 | a counter at or above its minimum reads back as the same number |
| Fen.FenRoundTrip | src/chess/engine.ts:321-451 | setFEN(getFEN()) installs exactly the state getFEN wrote, for every state with a positive move number and an en-passant square on rank 3 or 6 |
| Fen.FenFields | src/chess/engine.ts:361-372 | setFEN's split finds getFEN's six fields again |
| Fen.FenFixedPoint | src/chess/engine.ts:321-451 | for whatever setFEN accepts, getFEN writes a string setFEN reads back to the same state |
| Fen.EncodeFenInjective | src/chess/engine.ts:321-362 | distinct states have distinct FEN strings |
| Fen.CanonicalFenRoundTrip | src/chess/engine.ts:321-451 | every string in getFEN's canonical form is accepted by setFEN and written back unchanged by getFEN |
| Fen.EncodePlacement | src/chess/engine.ts:326-345 | getFEN's placement loops write the placement field |
| Fen.EncodeRank | src/chess/engine.ts:328-343 | the loop over one rank writes that rank's run-length string |
| Fen.ParseRankInto | src/chess/engine.ts:379-401 | the loop over one rank fills exactly that rank's eight squares with the parse, or fails with the parse's error, and leaves the other ranks unchanged |
| Fen.ParseRowInto | src/chess/engine.ts:377-402 | one more rank string parsed keeps the board equal to the rows parsed so far, or fails with the first error |
| Fen.ParsePlacement | src/chess/engine.ts:374-402 | setFEN's placement loops produce the decoded board or its error |
| Fen.RowsErrorPersists | src/chess/engine.ts:377-402 | once a rank fails, the placement result is that error |
| Chess960.EmptySlots | src/chess/engine.ts:270-287 | the free-slot list has one entry per empty slot |
| Chess960.EmptySlotsMember | src/chess/engine.ts:270-287 | every entry of the free-slot list is an empty slot |
| Chess960.EmptySlotsAscending | src/chess/engine.ts:270-287 | the free-slot list is in ascending file order |
| Chess960.EmptySlotsAfterPlace | src/chess/engine.ts:270-296 | filling the n-th free slot removes exactly the n-th entry of the free list |
| Chess960.Chess960Slots | src/chess/engine.ts:262-296 | the draws fill all eight back-rank slots |
| Chess960.PlaceMinorPieces | src/chess/engine.ts:262-287 | the bishop, queen and knight loops place those pieces by the draws |
| Chess960.FillBackRank | src/chess/engine.ts:262-296 | the generator fills the back rank the draws describe |
| Chess960.GenerateChess960State | src/chess/engine.ts:257-315 | generateChess960State builds the position of the drawn back rank |
| Chess960.Chess960Rank | src/chess/engine.ts:262-296 | the drawn back rank has eight pieces |
| Chess960.Chess960Pieces | src/chess/engine.ts:262-296 | the back rank is a permutation of R,N,B,Q,K,B,N,R |
| Chess960.Chess960Bishops | src/chess/engine.ts:262-267 | the two bishops stand on files of opposite parity |
| Chess960.Chess960KingBetweenRooks | src/chess/engine.ts:290-296 | the king stands strictly between the two rooks |
| Chess960.LayoutMirrored | src/chess/engine.ts:299-305 | White's back rank is the drawn rank, Black mirrors it file by file, the pawns are on ranks 2 and 7, and ranks 3 to 6 are empty |
| Chess960.Chess960Layout | src/chess/engine.ts:299-314 | the Chess960 position has the drawn rank for both sides, White to move, all castling rights, no en-passant square, halfmove 0 and fullmove 1 |
| San.TrimStart | src/chess/engine.ts:535 | stripping leading blanks removes exactly the leading run of blanks |
| San.TrimEnd | src/chess/engine.ts:535 | stripping trailing blanks removes exactly the trailing run of blanks |
| San.CleanedSuffix | src/chess/engine.ts:535 | a move text followed by '+', '#' or nothing cleans back to the move text |
| San.SplitPrefix | src/chess/engine.ts:561-564 | the piece letter is split off exactly as the kind's prefix; a pawn means no leading piece letter |
| San.SplitPromotion | src/chess/engine.ts:568-575 | a trailing promotion letter, with or without '=', is split off and read; otherwise the text is kept |
| San.Utf16Length | src/chess/engine.ts:581 | the length JavaScript reports: at least the number of characters and at most twice it, and exactly it when no character lies above U+FFFF |
| San.ParseBody | src/chess/engine.ts:578-605 | after removing 'x', a body shorter than two UTF-16 units is invalid SAN, a bad target square is an invalid target, otherwise the move keeps the kind and promotion |
| San.AstralBodyIsBadTarget | src/chess/engine.ts:581-585 | a body of one character above U+FFFF is two units long, so it passes the length test and is refused as an invalid target |
| San.SanParse | src/chess/engine.ts:558-605 | SAN parsing fails only with invalid SAN or an invalid target |
| San.ParseSan | src/chess/engine.ts:558-605 | moveSAN's parsing steps produce SanParse's result |
| San.ReadPrefix | src/chess/engine.ts:561-564 | the prefix step computes SplitPrefix |
| San.ReadPromotion | src/chess/engine.ts:568-575 | the promotion step computes SplitPromotion |
| San.ReadBody | src/chess/engine.ts:578-605 | the body step computes ParseBody |
| San.ReadHints | src/chess/engine.ts:593-600 | the hint loop keeps the last file letter and the last rank digit of the disambiguation |
| San.LastFileSound | src/chess/engine.ts:593-600 | the file hint is absent exactly when no file letter occurs, else it is the last one |
| San.LastRankSound | src/chess/engine.ts:593-600 | the rank hint is absent exactly when no rank digit occurs, else it is the last one |
| San.ScanSound | src/chess/engine.ts:611-628 | the mover scan returns the unique matching square, none when nothing matches, or ambiguous when two squares match |
| San.ScanUnique | src/chess/engine.ts:611-628 | with exactly one matching square, the scan finds it |
| San.IsMover | src/chess/engine.ts:612-626 | one square's test matches a piece of the right kind and colour that fits the hints and reaches the target |
| San.FindMover | src/chess/engine.ts:611-628 | moveSAN's scan over the 64 squares computes Scan |
| San.ResolveSan | src/chess/engine.ts:533-639 | moveSAN resolves the text to the UCI move SanUci describes, or its error |
| San.ResolveMover | src/chess/engine.ts:611-639 | the scan and UCI text compute MoverUci |
| San.SanUciResolves | src/chess/engine.ts:611-639 | a parsed non-castling SAN gives no-match exactly when nothing matches, ambiguous exactly when two squares match, and otherwise the UCI of the unique mover |
| San.MoverUciResolves | src/chess/engine.ts:611-639 | the same three cases for a parsed move |
| San.SanUciPlays | src/chess/engine.ts:611-639 | a resolved non-castling SAN names a legal move, which moveUCI records |
| San.CandidatesBelowMembers | src/chess/engine.ts:693-703 | the candidates are the other squares holding the same piece with the same target among their legal moves |
| San.DisambiguationSeparates | src/chess/engine.ts:705-723 | the disambiguation uses only file letters and rank digits; its hints name the mover's file or rank; every other candidate differs from the mover on a hinted coordinate |
| San.GetDisambiguation | src/chess/engine.ts:689-724 | getDisambiguation returns the file, the rank or the full square, as the candidates require |
| San.CollectCandidates | src/chess/engine.ts:693-703 | the candidate loop collects the candidates in ascending order |
| San.CheckSuffixMeaning | src/chess/engine.ts:726-745 | the suffix is '#' exactly when the opponent is mated, '+' exactly when in check but not mated, and nothing otherwise |
| San.AppendCheckSuffix | src/chess/engine.ts:726-745 | appendCheckSuffix computes CheckSuffix |
| San.WriteSan | src/chess/engine.ts:646-687 | one record's SAN is its move text with the check suffix |
| San.WritePawnText | src/chess/engine.ts:660-670 | a pawn move is written as the origin file and 'x' for a capture, the target, and '=' with the promotion letter |
| San.WritePieceText | src/chess/engine.ts:673-682 | a piece move is written as the letter, the disambiguation, 'x' for a capture, and the target |
| San.OnlyMoverMatches | src/chess/engine.ts:611-724 | reading back a piece move's disambiguation hints matches the mover and no other square |
| San.PieceSanRoundTrip | src/chess/engine.ts:533-724 | moveSAN resolves the SAN getSAN writes for a piece move, with any suffix, to the move's UCI |
| San.CastleSanRoundTrip | src/chess/engine.ts:538-549 | moveSAN resolves O-O and O-O-O, as written for a castling record, to the king's UCI move |
| San.CastleTextUci | src/chess/engine.ts:538-549 | O-O maps to e to g and O-O-O maps to e to c on the home rank of the side to move |
| San.SanReplay | src/chess/engine.ts:533-724 | the SAN written for a piece move without promotion, played by moveSAN on its position, records exactly the same move |
| Engine.CastlingText | src/chess/engine.ts:351-356 | the castling field holds K, Q, k, q for the rights held, in that order, or '-' |
| Engine.ChainedExtend | src/chess/engine.ts:511-524 | appending an accepted move played from the current position keeps the history chained |
| Engine.HistoryReplays | src/chess/engine.ts:457-524 | every move of a chained history, written as UCI and played from the position before it, gives exactly the same record |
| Engine.SanList | src/chess/engine.ts:646-687 | getSAN has one entry per record |
| Engine.SanHistoryReplays | src/chess/engine.ts:533-687 | getSAN followed by moveSAN: the SAN of a history piece move, played on the position before it, appends exactly that record again |
| Engine.ChessEngine.constructor | src/chess/engine.ts:239-242 | a new engine holds the starting position and no history |
| Engine.ChessEngine.Reset | src/chess/engine.ts:248-255 | reset installs the Chess960 position of the draws or the starting position, and clears the history |
| Engine.ChessEngine.GetFEN | src/chess/engine.ts:321-362 | getFEN writes the six fields of the current position, separated by single blanks |
| Engine.ChessEngine.SetFEN | src/chess/engine.ts:368-451 | on success the decoded position with an empty history; on the first bad field the error, with state and history unchanged |
| Engine.ChessEngine.MoveUCI | src/chess/engine.ts:457-527 | on a refusal the error, with state and history unchanged; otherwise exactly one record is appended and the position becomes the one after it |
| Engine.ChessEngine.MoveSAN | src/chess/engine.ts:533-640 | the text is resolved to a UCI move and handed to moveUCI; every error leaves state and history unchanged |
| Engine.ChessEngine.GetSAN | src/chess/engine.ts:646-687 | getSAN returns the SAN of every record, in order |
| Engine.ChessEngine.GetState | src/chess/engine.ts:751-753 | getState returns the current position |
| Engine.ChessEngine.GetHistory | src/chess/engine.ts:755-757 | getHistory returns the records in order |

## Left out

- User interface, language-model players, network, settings and the statistics code: these lie outside the rules engine.
- `Math.random` in `generateChess960State`: the five picks are the fields of a `Draws` value, each below the length of the list it is drawn from (`ValidDraws`).
- Error message text: the errors are the enumerations `FenError` and `MoveError`, one constructor per message of the source, carrying the values the message shows.
- `setFEN` throws; here it returns an `Outcome`. Like the source, it assigns the state only after every field has been read.
- Regular expressions: each one is a character-class predicate.
  - UCI format: `UciFormat`.
  - Castling field: `CastlingFieldValid`, which accepts duplicate letters, as the source does.
  - En-passant field; castle words `O-O`, `0-0`, `O-O-O` and `0-0-0`; the SAN promotion suffix.
  - Blank characters: `IsSpace` lists the characters JavaScript's `\s` matches.
- `cloneBoard`/`cloneState` and the copies made by `getState`/`getHistory`: positions and records are values, so a copy is the value itself.
- Draw rules (fifty-move rule, repetition) are not implemented by the source either.
- Move counters: the halfmove clock and the move number are unbounded naturals. In the source they are JavaScript numbers (doubles), which differ in three places.
  - `parseInt` rounds a digit string above 2^53 to the nearest double.
  - `+ 1` no longer changes a value of 2^53 or more.
  - From 1e21 on, the template literal of `getFEN` writes exponent form, such as `1e+21`, which `parseInt` reads back as its leading digit.
- Notation.NatString: writes decimal digits for every natural. The source does so only below 1e21.
- Notation.ParseNatString: holds in the source only for counters below 1e21.
- Fen.DecodeCounter: reads the digit prefix as an exact natural. The source rounds a prefix above 2^53 to the nearest double.
- Fen.CounterRoundTrip: holds in the source only for counters below 1e21.
- Fen.FenRoundTrip: holds in the source only when both counters are below 1e21. From there on, `setFEN(getFEN())` changes the counter.
- Fen.FenFixedPoint: holds in the source only when both accepted counters are below 1e21.
- Fen.CanonicalFenRoundTrip: holds in the source only for counters below 1e21. The source writes a 22-digit counter back in exponent form.
- Transition.CountersAfterMove: the increment is exact. In the source a counter of 2^53 or more stays unchanged under `+ 1`.
- Transition.TwoPlies: the same. In the source the move number stops growing at 2^53.
- Strings are sequences of Unicode characters, where JavaScript's lengths count UTF-16 units. The only length the SAN and FEN code tests on free text is the SAN body's `core.length`; San.Utf16Length counts that one in units. The source's character loops (`for … of`) go by characters, as the model does.
- Unicode case mapping in `fenCharToPiece`: only ASCII letters are folded. JavaScript's `toLowerCase` also maps rarer letters such as U+212A KELVIN SIGN to 'k'.
- `trim().split(/\s+/)` in `setFEN`: modelled as the maximal non-blank runs, and `[""]` for all-blank text. Both give the field-count error wherever the two differ.
- `parseInt`: modelled as an optional sign and the longest digit prefix, with trailing text ignored, as in the source. The radix is 10, so `0x10` reads as 0 there too. `-0` reads as 0.
- Off-board indices in `getLegalMoves`'s simulation: there the source computes the en-passant victim and the castling rook squares without a bounds check. A read off the board gives no piece, as JavaScript's `undefined` does. A write off the board is dropped, because the king search never reads it.
- Transition.ApplyMoveToState: requires the move to be `Applicable`, meaning a piece stands on the origin and a pawn's 16-square move goes forward. Both callers meet it, and Transition.PseudoTargetsApplicable proves that every pseudo-legal move does.
- Transition.BoardAfterMove: reproduces the source placing the promotion piece for any moving piece that comes with a promotion letter. It does not restrict promotion to pawns on the last rank.
- Moves.PlayUciKeepsKingSafe: stated only for moves without a promotion letter. With a letter, the piece on the target changes kind after getLegalMoves's check, and the model proves nothing about that case.
- San.SanReplay: stated only for piece moves without a promotion. Pawn moves and promotions are written by San.WritePawnText but not proved to read back.
- Engine.SanHistoryReplays: the same restriction as San.SanReplay.
- San members (`Matches`, `Scan`, `Disambiguation`, `SanUci`, `SanOf`) take the table of every square's legal moves as a parameter. The methods fill it with `Moves.LegalTable`, and `Moves.LegalTableAt` ties each entry to `getLegalMoves`.
- Engine.ChessEngine: the engine's invariant is the chained history only. It does not also keep the position within what FEN can encode.
- That the standard starting position is one of the 960: not proved.
