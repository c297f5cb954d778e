/**
 * Moves given in UCI coordinate notation (src/chess/engine.ts moveUCI): the checks a move string
 * must pass, in their order, and the history record a successful move appends.
 */
module Moves {
  import opened Wrappers
  import opened Types
  import opened Squares
  import opened Notation
  import opened Generators
  import opened Legality
  import opened Transition

  /** Why moveUCI or moveSAN refuses a move (the message text is not modelled). */
  datatype MoveError =
    | InvalidUci
    | NoPiece
    | WrongTurn
    | IllegalMove
    | InvalidSan
    | InvalidSanTarget
    | AmbiguousSan
    | NoMatchingSan

  /** One entry of the engine's history. */
  datatype MoveRecord = MoveRecord(
    piece: PieceKind,
    color: Color,
    from: Square,
    to: Square,
    captured: Option<PieceKind>,
    promotion: Option<PieceKind>,
    castleKingside: bool,
    castleQueenside: bool,
    stateBefore: GameState)

  /** The move format: from and to square names, then optionally one of q, r, b, n. */
  predicate UciFormat(s: string) {
    (|s| == 4 || |s| == 5) && IsFileChar(s[0]) && IsRankChar(s[1]) && IsFileChar(s[2]) && IsRankChar(s[3]) &&
    (|s| == 5 ==> s[4] in "qrbn")
  }

  /** The piece taken: the kind on the target, or a pawn when a pawn moves onto the en-passant
      square. */
  function CapturedKind(st: GameState, piece: Piece, to: Square): Option<PieceKind> {
    if st.board[to].Some? then Some(st.board[to].value.kind)
    else if piece.kind == Pawn && st.enPassant == Some(to) then Some(Pawn)
    else None
  }

  /** A move of the side to move that getLegalMoves offers. */
  predicate LegalMove(st: GameState, from: Square, to: Square) {
    st.board[from].Some? && st.board[from].value.color == st.activeColor && to in LegalTargets(st, from)
  }

  /** Every legal move can be applied. */
  lemma LegalApplicable(st: GameState, from: Square, to: Square)
    requires st.board[from].Some? && to in LegalTargets(st, from)
    ensures Applicable(st, from, to)
  {
    LegalTargetsMembers(st, from, to);
    PseudoTargetsApplicable(st, from, to);
  }

  /** getLegalMoves for each of the 64 squares of a position: the lists moveSAN and
      getDisambiguation consult. */
  function LegalTable(st: GameState): (legal: seq<seq<Square>>)
    ensures |legal| == 64
  {
    seq(64, i requires 0 <= i < 64 => LegalTargets(st, i))
  }

  lemma LegalTableAt(st: GameState, i: Square)
    ensures LegalTable(st)[i] == LegalTargets(st, i)
  {
  }

  /** The record moveUCI pushes for a move from `from` to `to`. */
  function RecordOf(st: GameState, from: Square, to: Square, promo: Option<PieceKind>): MoveRecord
    requires st.board[from].Some?
  {
    var piece := st.board[from].value;
    MoveRecord(piece.kind, piece.color, from, to, CapturedKind(st, piece, to), promo,
               piece.kind == King && to - from == 2, piece.kind == King && from - to == 2, st)
  }

  /** A record as moveUCI writes it: a legal move of the side to move, a promotion that is none or
      one a UCI letter names, and the fields derived from the position before it. */
  predicate Recorded(rec: MoveRecord) {
    LegalMove(rec.stateBefore, rec.from, rec.to) && rec.promotion == ReadBack(rec.promotion) &&
    rec == RecordOf(rec.stateBefore, rec.from, rec.to, rec.promotion)
  }

  lemma RecordedApplicable(rec: MoveRecord)
    requires Recorded(rec)
    ensures Applicable(rec.stateBefore, rec.from, rec.to)
  {
    LegalApplicable(rec.stateBefore, rec.from, rec.to);
  }

  /** The from square, to square and promotion a UCI string names. */
  datatype UciMove = UciMove(from: Square, to: Square, promotion: Option<PieceKind>)

  /** moveUCI's format check and the fields it reads; None for a string of the wrong format. */
  function ParseUci(uci: string): (r: Option<UciMove>)
    ensures r.Some? <==> UciFormat(uci)
  {
    if !UciFormat(uci) then None
    else Some(UciMove(AlgebraicToSquare(uci[..2]), AlgebraicToSquare(uci[2..4]),
                      if |uci| == 5 then PromotionCharToKind(uci[4]) else None))
  }

  /** moveUCI: the format, then a piece on the from square, then its color, then the target among
      the legal moves; the record of the move if all pass. */
  function PlayUci(st: GameState, uci: string): (r: Result<MoveRecord, MoveError>)
    ensures r.Ok? ==> r.value.stateBefore == st && Recorded(r.value) && Applicable(st, r.value.from, r.value.to)
    ensures r.Ok? ==> ParseUci(uci) == Some(UciMove(r.value.from, r.value.to, r.value.promotion))
  {
    match ParseUci(uci)
      case None => Err(InvalidUci)
      case Some(m) =>
        if st.board[m.from].None? then Err(NoPiece)
        else if st.board[m.from].value.color != st.activeColor then Err(WrongTurn)
        else if m.to !in LegalTargets(st, m.from) then Err(IllegalMove)
        else
          LegalApplicable(st, m.from, m.to);
          Ok(RecordOf(st, m.from, m.to, m.promotion))
  }

  /** moveUCI's checks in their order, and the record it builds when they all pass. */
  method CheckUci(st: GameState, uci: string) returns (r: Result<MoveRecord, MoveError>)
    ensures r == PlayUci(st, uci)
  {
    if !UciFormat(uci) {
      return Err(InvalidUci);
    }
    var fromIndex := AlgebraicToSquare(uci[..2]);
    var toIndex := AlgebraicToSquare(uci[2..4]);
    var piece := st.board[fromIndex];
    if piece.None? {
      return Err(NoPiece);
    }
    if piece.value.color != st.activeColor {
      return Err(WrongTurn);
    }
    var legalMoves := GetLegalMoves(st, fromIndex);
    if toIndex !in legalMoves {
      return Err(IllegalMove);
    }
    var promotion := if |uci| == 5 then PromotionCharToKind(uci[4]) else None;
    var captured: Option<PieceKind> := None;
    var targetPiece := st.board[toIndex];
    if targetPiece.Some? {
      captured := Some(targetPiece.value.kind);
    } else if piece.value.kind == Pawn && st.enPassant == Some(toIndex) {
      captured := Some(Pawn);
    }
    var isCastleKingside := piece.value.kind == King && toIndex as int - fromIndex as int == 2;
    var isCastleQueenside := piece.value.kind == King && fromIndex as int - toIndex as int == 2;
    r := Ok(MoveRecord(piece.value.kind, piece.value.color, fromIndex, toIndex, captured, promotion,
                       isCastleKingside, isCastleQueenside, st));
  }

  /** Each refusal of moveUCI happens exactly when its check is the first to fail. */
  lemma PlayUciErrors(st: GameState, uci: string)
    ensures PlayUci(st, uci) == Err(InvalidUci) <==> !UciFormat(uci)
    ensures ParseUci(uci).Some? ==> var m := ParseUci(uci).value;
      (PlayUci(st, uci) == Err(NoPiece) <==> st.board[m.from].None?) &&
      (PlayUci(st, uci) == Err(WrongTurn) <==> st.board[m.from].Some? && st.board[m.from].value.color != st.activeColor) &&
      (PlayUci(st, uci) == Err(IllegalMove) <==>
         st.board[m.from].Some? && st.board[m.from].value.color == st.activeColor && m.to !in LegalTargets(st, m.from)) &&
      (PlayUci(st, uci).Ok? <==> LegalMove(st, m.from, m.to)) &&
      (LegalMove(st, m.from, m.to) ==> PlayUci(st, uci) == Ok(RecordOf(st, m.from, m.to, m.promotion)))
    ensures PlayUci(st, uci).Err? ==> PlayUci(st, uci).error in {InvalidUci, NoPiece, WrongTurn, IllegalMove}
  {
  }

  /** The letter moveSAN appends for a promotion: lower case, none for king or pawn. */
  function UciPromotion(k: PieceKind): (s: string)
    ensures s == [] <==> k in {King, Pawn}
  {
    if k in {King, Pawn} then "" else [LowerLetter(k)]
  }

  /** The UCI string of a move, as moveSAN builds it. */
  function UciOf(from: Square, to: Square, promo: Option<PieceKind>): string {
    SquareName(from) + SquareName(to) + (if promo.Some? then UciPromotion(promo.value) else "")
  }

  /** A promotion to queen, rook, bishop or knight written by UciOf reads back; a king or pawn
      letter is not written and reads back as no promotion. */
  function ReadBack(promo: Option<PieceKind>): Option<PieceKind> {
    if promo.Some? && promo.value in {Queen, Rook, Bishop, Knight} then promo else None
  }

  /** The promotion text UciOf writes is empty, or one letter that reads back as the promotion. */
  lemma UciPromotionReads(promo: Option<PieceKind>)
    ensures var c := if promo.Some? then UciPromotion(promo.value) else "";
      |c| <= 1 && (|c| == 0 <==> ReadBack(promo) == None) &&
      (|c| == 1 ==> c[0] in "qrbn" && PromotionCharToKind(c[0]) == ReadBack(promo))
  {
    if promo.Some? && promo.value in {Queen, Rook, Bishop, Knight} {
      PromotionLetterRoundTrip(promo.value);
    }
  }

  /** A UCI string written by UciOf parses back to its move. */
  lemma ParseUciOf(from: Square, to: Square, promo: Option<PieceKind>)
    ensures ParseUci(UciOf(from, to, promo)) == Some(UciMove(from, to, ReadBack(promo)))
  {
    var a, b := SquareName(from), SquareName(to);
    var c := if promo.Some? then UciPromotion(promo.value) else "";
    var uci := a + b + c;
    assert uci == UciOf(from, to, promo);
    assert uci[..2] == a && uci[2..4] == b && uci[4..] == c;
    SquareNameRoundTrip(from);
    SquareNameRoundTrip(to);
    UciPromotionReads(promo);
    assert UciFormat(uci);
  }

  /** The fifth character of a UCI string is the letter UciOf writes for the promotion it names. */
  lemma UciPromotionText(uci: string)
    requires UciFormat(uci)
    ensures var p := if |uci| == 5 then PromotionCharToKind(uci[4]) else None;
      uci[4..] == (if p.Some? then UciPromotion(p.value) else "") && p == ReadBack(p)
  {
    if |uci| == 5 {
      assert uci[4] in "qrbn";
      assert uci[4..] == [uci[4]];
    }
  }

  /** Every well-formed UCI string is the one UciOf writes for the move it parses to. */
  lemma ParseUciInverse(uci: string)
    requires ParseUci(uci).Some?
    ensures var m := ParseUci(uci).value;
      uci == UciOf(m.from, m.to, m.promotion) && m.promotion == ReadBack(m.promotion)
  {
    var a, b, c := uci[..2], uci[2..4], uci[4..];
    SquareNameInverse(a);
    SquareNameInverse(b);
    UciPromotionText(uci);
    assert uci == a + b + c;
  }

  /** A legal move written as a UCI string is played as exactly that move. */
  lemma PlayUciOf(st: GameState, from: Square, to: Square, promo: Option<PieceKind>)
    requires LegalMove(st, from, to)
    ensures PlayUci(st, UciOf(from, to, promo)) == Ok(RecordOf(st, from, to, ReadBack(promo)))
  {
    ParseUciOf(from, to, promo);
  }

  /** Without a promotion, the move leaves the mover with a king that is not in check. */
  lemma PlayUciKeepsKingSafe(st: GameState, uci: string)
    requires PlayUci(st, uci).Ok? && PlayUci(st, uci).value.promotion == None
    ensures var rec := PlayUci(st, uci).value;
      var next := NextState(st, rec.from, rec.to, None);
      KingSquare(next.board, st.activeColor).Some? && !InCheck(next, st.activeColor)
  {
    var rec := PlayUci(st, uci).value;
    LegalTargetsMembers(st, rec.from, rec.to);
    SimulationIsApply(st, rec.from, rec.to);
  }

  /** The record's flags: a capture is noted exactly when the target is occupied or a pawn takes en
      passant, and a castle exactly when the king jumps two files. */
  lemma RecordFlags(rec: MoveRecord)
    requires Recorded(rec)
    ensures var st := rec.stateBefore;
      st.board[rec.from] == Some(Piece(rec.piece, rec.color)) && rec.color == st.activeColor &&
      (rec.captured.Some? <==> st.board[rec.to].Some? || (rec.piece == Pawn && st.enPassant == Some(rec.to))) &&
      (rec.castleKingside <==> rec.piece == King && rec.to == HomeSquare(rec.color, 6) && rec.from == HomeSquare(rec.color, 4)) &&
      (rec.castleQueenside <==> rec.piece == King && rec.to == HomeSquare(rec.color, 2) && rec.from == HomeSquare(rec.color, 4))
  {
    var st := rec.stateBefore;
    if rec.piece == King {
      LegalTargetsMembers(st, rec.from, rec.to);
      KingJumpIsCastling(st, rec.from, rec.color, rec.to);
      if rec.to - rec.from == 2 || rec.from - rec.to == 2 {
        HomeSquareCoordinates(rec.color, 4, rec.from);
      }
      if rec.to == HomeSquare(rec.color, 6) && rec.from == HomeSquare(rec.color, 4) {
        assert rec.to - rec.from == 2;
      }
      if rec.to == HomeSquare(rec.color, 2) && rec.from == HomeSquare(rec.color, 4) {
        assert rec.from - rec.to == 2;
      }
    }
  }
}
