/**
 * The ChessEngine class of src/chess/engine.ts: the current position and the history of the moves
 * played since the last reset or setFEN, with the operations that read and change them.
 */
module Engine {
  import opened Wrappers
  import opened Types
  import opened Squares
  import opened Notation
  import opened Legality
  import opened Transition
  import opened Fen
  import opened Chess960
  import opened Moves
  import opened San

  /** The position a record's move leads to. */
  function After(rec: MoveRecord): GameState
    requires Applicable(rec.stateBefore, rec.from, rec.to)
  {
    NextState(rec.stateBefore, rec.from, rec.to, rec.promotion)
  }

  /** A history as moveUCI builds it, ending in position st: every record is a move moveUCI
      accepted, each starts from the position the one before it produced, and st is the position
      the last one produced. */
  predicate Chained(h: seq<MoveRecord>, st: GameState) {
    (forall j :: 0 <= j < |h| ==> Recorded(h[j]) && Applicable(h[j].stateBefore, h[j].from, h[j].to)) &&
    (forall j :: 0 < j < |h| ==> h[j].stateBefore == After(h[j - 1])) &&
    (h != [] ==> st == After(h[|h| - 1]))
  }

  /** A move appended to a chained history from its end position keeps it chained. */
  lemma ChainedExtend(h: seq<MoveRecord>, st: GameState, rec: MoveRecord)
    requires Chained(h, st) && Recorded(rec) && rec.stateBefore == st
    requires Applicable(rec.stateBefore, rec.from, rec.to)
    ensures Chained(h + [rec], After(rec))
  {
    var h' := h + [rec];
    forall j | 0 <= j < |h'|
      ensures Recorded(h'[j]) && Applicable(h'[j].stateBefore, h'[j].from, h'[j].to)
    {
      if j < |h| {
        assert h'[j] == h[j];
      }
    }
    forall j | 0 < j < |h'|
      ensures h'[j].stateBefore == After(h'[j - 1])
    {
      assert h'[j - 1] == h[j - 1];
      if j < |h| {
        assert h'[j] == h[j];
      }
    }
  }

  /** Each move a chained history holds is replayed by moveUCI from the position before it as
      exactly the same record. */
  lemma HistoryReplays(h: seq<MoveRecord>, st: GameState, j: int)
    requires Chained(h, st) && 0 <= j < |h|
    ensures PlayUci(h[j].stateBefore, UciOf(h[j].from, h[j].to, h[j].promotion)) == Ok(h[j])
  {
    PlayUciOf(h[j].stateBefore, h[j].from, h[j].to, h[j].promotion);
  }

  /** Every record can be applied, so its SAN can be written. */
  predicate AllApplicable(h: seq<MoveRecord>) {
    forall j :: 0 <= j < |h| ==> Applicable(h[j].stateBefore, h[j].from, h[j].to)
  }

  lemma ChainedApplicable(h: seq<MoveRecord>, st: GameState)
    requires Chained(h, st)
    ensures AllApplicable(h)
  {
  }

  /** f applied to each element of h, in order. */
  function MapSeq<A, B>(f: A --> B, h: seq<A>): (r: seq<B>)
    requires forall j :: 0 <= j < |h| ==> f.requires(h[j])
    ensures |r| == |h|
  {
    seq(|h|, j requires 0 <= j < |h| => f(h[j]))
  }

  /** Mapping one more element adds its image at the end. */
  lemma MapSeqSnoc<A, B>(f: A --> B, h: seq<A>, j: int)
    requires forall k :: 0 <= k < |h| ==> f.requires(h[k])
    requires 0 <= j < |h|
    ensures MapSeq(f, h[..j + 1]) == MapSeq(f, h[..j]) + [f(h[j])]
  {
  }

  lemma MapSeqAt<A, B>(f: A --> B, h: seq<A>, j: int)
    requires forall k :: 0 <= k < |h| ==> f.requires(h[k])
    requires 0 <= j < |h|
    ensures MapSeq(f, h)[j] == f(h[j])
  {
  }

  /** The SAN getSAN writes for one record, against the legal moves of the position before it. */
  function SanEntry(rec: MoveRecord): string
    requires Applicable(rec.stateBefore, rec.from, rec.to)
  {
    SanOf(rec, LegalTable(rec.stateBefore))
  }

  /** getSAN: the SAN of each record, in the order of the history. */
  function SanList(h: seq<MoveRecord>): (sans: seq<string>)
    requires AllApplicable(h)
    ensures |sans| == |h|
  {
    MapSeq(SanEntry, h)
  }

  /** getSAN followed by moveSAN: the SAN written for a piece move of the history, played on the
      position before it, appends exactly that record again. */
  lemma SanHistoryReplays(h: seq<MoveRecord>, st: GameState, j: int)
    requires Chained(h, st) && 0 <= j < |h| && h[j].piece != Pawn && h[j].promotion == None
    ensures AllApplicable(h)
    ensures var before := h[j].stateBefore;
      var uci := SanUci(before, LegalTable(before), SanList(h)[j]);
      uci.Ok? && PlayUci(before, uci.value) == Ok(h[j])
  {
    ChainedApplicable(h, st);
    var rec := h[j];
    var legal := LegalTable(rec.stateBefore);
    MapSeqAt(SanEntry, h, j);
    assert SanList(h)[j] == SanEntry(rec);
    LegalTableAt(rec.stateBefore, rec.from);
    SanReplay(rec, legal);
  }

  /** Six fields joined with blanks. */
  lemma JoinFields(a: string, b: string, c: string, d: string, e: string, f: string)
    ensures Join([a, b, c, d, e, f], ' ') == a + " " + b + " " + c + " " + d + " " + e + " " + f
  {
    JoinCons(e, [f]);
    JoinCons(d, [e, f]);
    JoinCons(c, [d, e, f]);
    JoinCons(b, [c, d, e, f]);
    JoinCons(a, [b, c, d, e, f]);
  }

  /** A field in front of a non-empty list joins with one blank. */
  lemma JoinCons(x: string, rest: seq<string>)
    requires rest != []
    ensures Join([x] + rest, ' ') == x + " " + Join(rest, ' ')
  {
    assert ([x] + rest)[1..] == rest;
  }

  /** The castling field of getFEN: the letters of the rights held, in the order KQkq, or '-'. */
  method CastlingText(c: CastlingRights) returns (castling: string)
    ensures castling == CastlingField(c)
  {
    castling := "";
    if c.K {
      castling := castling + "K";
    }
    if c.Q {
      castling := castling + "Q";
    }
    if c.k {
      castling := castling + "k";
    }
    if c.q {
      castling := castling + "q";
    }
    if castling == "" {
      castling := "-";
    }
  }

  class ChessEngine {
    var state: GameState
    var history: seq<MoveRecord>

    /** The history leads from its first position to the current one. */
    ghost predicate Valid()
      reads this
    {
      Chained(history, state)
    }

    /** A new engine holds the starting position and no history. */
    constructor()
      ensures state == StartingGameState() && history == [] && Valid()
    {
      state := StartingGameState();
      history := [];
    }

    /** reset: the Chess960 position of the draws d when fisher is set, else the starting
        position; the history is cleared. */
    method Reset(fisher: bool, d: Draws)
      requires fisher ==> ValidDraws(d)
      modifies this
      ensures state == (if fisher then Chess960State(d) else StartingGameState())
      ensures history == [] && Valid()
    {
      if fisher {
        state := GenerateChess960State(d);
      } else {
        state := StartingGameState();
      }
      history := [];
    }

    /** getFEN: the six fields of the current position, separated by single blanks. */
    method GetFEN() returns (fen: string)
      ensures fen == EncodeFen(state)
    {
      var placement := EncodePlacement(state.board);
      var color := if state.activeColor == White then "w" else "b";
      var castling := CastlingText(state.castling);
      var ep := if state.enPassant.Some? then SquareName(state.enPassant.value) else "-";
      assert color == ColorField(state.activeColor);
      assert ep == EnPassantField(state.enPassant);
      JoinFields(placement, color, castling, ep, NatString(state.halfmove), NatString(state.fullmove));
      fen := placement + " " + color + " " + castling + " " + ep + " " + NatString(state.halfmove) + " " +
             NatString(state.fullmove);
    }

    /** setFEN: on success the decoded position with an empty history; on the first bad field
        the error, with the engine unchanged. */
    method SetFEN(fen: string) returns (r: Outcome<FenError>)
      requires Valid()
      modifies this
      ensures Valid()
      ensures match DecodeFen(fen)
        case Ok(st) => r == Pass && state == st && history == []
        case Err(e) => r == Fail(e) && state == old(state) && history == old(history)
    {
      var parts := Fields(fen);
      if |parts| != 6 {
        return Fail(FieldCount(|parts|));
      }
      var board := ParsePlacement(parts[0]);
      if board.Err? {
        return Fail(board.error);
      }
      var activeColor := DecodeColor(parts[1]);
      if activeColor.Err? {
        return Fail(activeColor.error);
      }
      var castlingRights := DecodeCastling(parts[2]);
      if castlingRights.Err? {
        return Fail(castlingRights.error);
      }
      var enPassantSquare := DecodeEnPassant(parts[3]);
      if enPassantSquare.Err? {
        return Fail(enPassantSquare.error);
      }
      var halfmoveClock := DecodeCounter(parts[4], 0, BadHalfmove);
      if halfmoveClock.Err? {
        return Fail(halfmoveClock.error);
      }
      var fullmoveNumber := DecodeCounter(parts[5], 1, BadFullmove);
      if fullmoveNumber.Err? {
        return Fail(fullmoveNumber.error);
      }
      state := GameState(board.value, activeColor.value, castlingRights.value, enPassantSquare.value,
                         halfmoveClock.value, fullmoveNumber.value);
      history := [];
      r := Pass;
    }

    /** moveUCI: on a refusal the error, with the engine unchanged; otherwise the move is played
        and its record appended to the history. */
    method MoveUCI(uci: string) returns (r: Outcome<MoveError>)
      requires Valid()
      modifies this
      ensures Valid()
      ensures match PlayUci(old(state), uci)
        case Err(e) => r == Fail(e) && state == old(state) && history == old(history)
        case Ok(rec) => r == Pass && history == old(history) + [rec] && state == After(rec)
    {
      var checked := CheckUci(state, uci);
      if checked.Err? {
        return Fail(checked.error);
      }
      var rec := checked.value;
      ChainedExtend(history, state, rec);
      state := ApplyMoveToState(state, rec.from, rec.to, rec.promotion);
      history := history + [rec];
      r := Pass;
    }

    /** moveSAN: the UCI move the SAN text stands for is handed to moveUCI; an error found before
        that leaves the engine unchanged. */
    method MoveSAN(san: string) returns (r: Outcome<MoveError>)
      requires Valid()
      modifies this
      ensures Valid()
      ensures match SanUci(old(state), LegalTable(old(state)), san)
        case Err(e) => r == Fail(e) && state == old(state) && history == old(history)
        case Ok(uci) =>
          match PlayUci(old(state), uci)
            case Err(e) => r == Fail(e) && state == old(state) && history == old(history)
            case Ok(rec) => r == Pass && history == old(history) + [rec] && state == After(rec)
    {
      var resolved := ResolveSan(state, san);
      if resolved.Err? {
        return Fail(resolved.error);
      }
      r := MoveUCI(resolved.value);
    }

    /** getSAN: the SAN of every record of the history, in order. */
    method GetSAN() returns (sans: seq<string>)
      requires Valid()
      ensures AllApplicable(history) && sans == SanList(history)
    {
      ChainedApplicable(history, state);
      sans := [];
      for j := 0 to |history|
        invariant AllApplicable(history[..j]) && sans == SanList(history[..j])
      {
        MapSeqSnoc(SanEntry, history, j);
        var san := WriteSan(history[j]);
        sans := sans + [san];
      }
      assert history[..|history|] == history;
    }

    /** getState: the current position (a copy in the source; a value here). */
    method GetState() returns (st: GameState)
      ensures st == state
    {
      st := state;
    }

    /** getHistory: the records of the moves played (copies in the source; values here). */
    method GetHistory() returns (h: seq<MoveRecord>)
      ensures h == history
    {
      h := history;
    }
  }
}
