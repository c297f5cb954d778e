/**
 * Forsyth-Edwards Notation (src/chess/engine.ts, getFEN and setFEN): the text form of a game
 * state, its parser with the parser's error cases in the order it checks them, and the round trip.
 */
module Fen {
  import opened Wrappers
  import opened Types
  import opened Squares
  import opened Notation

  /** Why setFEN rejects a string, in the order it checks; ranks are numbered 8 (first) to 1. */
  datatype FenError =
    | FieldCount(fields: nat)
    | RankCount(ranks: nat)
    | TooManySquares(rank: int)
    | RankSize(rank: int, files: nat)
    | BadPiece(c: char)
    | BadColor
    | BadCastling
    | BadEnPassant
    | BadHalfmove
    | BadFullmove

  // ---------------------------------------------------------------------------
  // Fields: trim().split(/\s+/)
  // ---------------------------------------------------------------------------

  /** The characters the regular-expression class \s matches. */
  predicate IsSpace(c: char) {
    c == ' ' || c == '\t' || c == '\n' || c == '\U{0B}' || c == '\U{0C}' || c == '\r' ||
    c == '\U{A0}' || c == '\U{1680}' || ('\U{2000}' <= c <= '\U{200A}') ||
    c == '\U{2028}' || c == '\U{2029}' || c == '\U{202F}' || c == '\U{205F}' || c == '\U{3000}' || c == '\U{FEFF}'
  }

  predicate NoSpace(s: string) {
    forall j :: 0 <= j < |s| ==> !IsSpace(s[j])
  }

  /** The length of the run of non-blank characters at the front of s. */
  function WordLen(s: string): (k: nat)
    ensures k <= |s|
    ensures forall j :: 0 <= j < k ==> !IsSpace(s[j])
    ensures k < |s| ==> IsSpace(s[k])
    ensures |s| > 0 && !IsSpace(s[0]) ==> k >= 1
  {
    if s == [] || IsSpace(s[0]) then 0 else 1 + WordLen(s[1..])
  }

  /** The maximal runs of non-blank characters, in order. */
  function Tokens(s: string): (ts: seq<string>)
    ensures forall j :: 0 <= j < |ts| ==> ts[j] != [] && NoSpace(ts[j])
    decreases |s|
  {
    if s == [] then []
    else if IsSpace(s[0]) then Tokens(s[1..])
    else
      var k := WordLen(s);
      [s[..k]] + Tokens(s[k..])
  }

  /** trim().split(/\s+/): a blank string gives one empty field. */
  function Fields(s: string): seq<string> {
    if Tokens(s) == [] then [""] else Tokens(s)
  }

  /** parts.join(sep). */
  function Join(parts: seq<string>, sep: char): string
    decreases |parts|
  {
    if parts == [] then ""
    else if |parts| == 1 then parts[0]
    else parts[0] + [sep] + Join(parts[1..], sep)
  }

  /** The index of the first `sep` in s, or |s|. */
  function IndexOf(s: string, sep: char): (k: nat)
    ensures k <= |s| && (k < |s| ==> s[k] == sep)
    ensures forall j :: 0 <= j < k ==> s[j] != sep
  {
    if s == [] then 0 else if s[0] == sep then 0 else 1 + IndexOf(s[1..], sep)
  }

  /** s.split(sep) for a one-character separator: the pieces between separators, at least one. */
  function SplitOn(s: string, sep: char): (parts: seq<string>)
    ensures |parts| >= 1
    decreases |s|
  {
    var k := IndexOf(s, sep);
    if k == |s| then [s] else [s[..k]] + SplitOn(s[k + 1..], sep)
  }

  // ---------------------------------------------------------------------------
  // Piece placement
  // ---------------------------------------------------------------------------

  type Row = seq<Option<Piece>>

  /** The eight squares of rank r, file a first. */
  function RowOf(b: Board, r: int): (row: Row)
    requires 0 <= r < 8
    ensures |row| == 8
  {
    b[r * 8 .. r * 8 + 8]
  }

  /** The count of empty squares written before a piece or at the end of a rank. */
  function EmptyRun(e: nat): string {
    if e > 0 then NatString(e) else ""
  }

  /** One rank of getFEN: pieces by letter, runs of empty squares by their count; `e` empty
      squares are pending from the left. */
  function RankChars(cells: Row, e: nat): string
    decreases |cells|
  {
    if cells == [] then EmptyRun(e)
    else if cells[0].None? then RankChars(cells[1..], e + 1)
    else EmptyRun(e) + [PieceChar(cells[0].value)] + RankChars(cells[1..], 0)
  }

  function RankString(b: Board, r: int): string
    requires 0 <= r < 8
  {
    RankChars(RowOf(b, r), 0)
  }

  /** The ranks of the board from rank 8 down to rank 1. */
  function FenRows(b: Board): (rows: seq<Row>)
    ensures |rows| == 8 && forall i :: 0 <= i < 8 ==> |rows[i]| == 8
  {
    seq(8, i requires 0 <= i < 8 => RowOf(b, 7 - i))
  }

  /** The rank strings from rank 8 down to rank 1. */
  function RankStrings(b: Board): (strs: seq<string>)
    ensures |strs| == 8
  {
    seq(8, i requires 0 <= i < 8 => RankString(b, 7 - i))
  }

  /** The placement field: the rank strings joined by '/'. */
  function Placement(b: Board): string {
    Join(RankStrings(b), '/')
  }

  function Empties(n: nat): (r: Row)
    ensures |r| == n && forall j :: 0 <= j < n ==> r[j].None?
  {
    seq(n, _ => None)
  }

  /** setFEN's scan of one rank string: a digit 1-8 skips that many files, any other character
      must name a piece and fit on the rank; the rank must come out at exactly 8 files. `cells` are
      the files read so far. */
  function ParseRank(chars: string, rankNo: int, cells: Row): (r: Result<Row, FenError>)
    ensures r.Ok? ==> |r.value| == 8
    decreases |chars|
  {
    if chars == [] then
      if |cells| != 8 then Err(RankSize(rankNo, |cells|)) else Ok(cells)
    else if IsRankChar(chars[0]) then
      ParseRank(chars[1..], rankNo, cells + Empties(DigitValue(chars[0])))
    else if |cells| >= 8 then Err(TooManySquares(rankNo))
    else match FenCharToPiece(chars[0])
      case None => Err(BadPiece(chars[0]))
      case Some(p) => ParseRank(chars[1..], rankNo, cells + [Some(p)])
  }

  /** The first n rank strings, each parsed in turn (the first is rank 8); the first bad rank is
      the error. */
  function ParseRows(strs: seq<string>, n: nat): (r: Result<seq<Row>, FenError>)
    requires n <= |strs|
    ensures r.Ok? ==> |r.value| == n && forall j :: 0 <= j < n ==> |r.value[j]| == 8
  {
    if n == 0 then Ok([])
    else match ParseRows(strs, n - 1)
      case Err(e) => Err(e)
      case Ok(rows) =>
        match ParseRank(strs[n - 1], 9 - n, [])
          case Err(e) => Err(e)
          case Ok(row) => Ok(rows + [row])
  }

  /** The squares of the FEN rows read so far, in board order: the last row read is the lowest
      rank. */
  function RevConcat(rows: seq<Row>): (b: seq<Option<Piece>>)
    requires forall j :: 0 <= j < |rows| ==> |rows[j]| == 8
    ensures |b| == 8 * |rows|
  {
    if rows == [] then [] else rows[|rows| - 1] + RevConcat(rows[..|rows| - 1])
  }

  /** The board whose rank 8 is rows[0] and rank 1 is rows[7]. */
  function BoardOf(rows: seq<Row>): Board
    requires |rows| == 8 && forall j :: 0 <= j < 8 ==> |rows[j]| == 8
  {
    RevConcat(rows)
  }

  /** The placement half of setFEN. */
  function DecodePlacement(p: string): Result<Board, FenError> {
    var strs := SplitOn(p, '/');
    if |strs| != 8 then Err(RankCount(|strs|))
    else match ParseRows(strs, 8)
      case Err(e) => Err(e)
      case Ok(rows) => Ok(BoardOf(rows))
  }

  // ---------------------------------------------------------------------------
  // The other fields
  // ---------------------------------------------------------------------------

  function ColorField(c: Color): string {
    if c == White then "w" else "b"
  }

  /** The castling field: KQkq in that order for the rights held, '-' for none. */
  function CastlingField(c: CastlingRights): string {
    var s := (if c.K then "K" else "") + (if c.Q then "Q" else "") + (if c.k then "k" else "") + (if c.q then "q" else "");
    if s == "" then "-" else s
  }

  /** The castling field setFEN accepts: '-' or one to four of the letters KQkq, repeats allowed. */
  predicate CastlingFieldValid(s: string) {
    s == "-" || (1 <= |s| <= 4 && CastlingLetters(s))
  }

  /** Each right is held when its letter occurs in the field. */
  function CastlingOf(s: string): CastlingRights {
    CastlingRights('K' in s, 'Q' in s, 'k' in s, 'q' in s)
  }

  function EnPassantField(ep: Option<Square>): string {
    if ep.None? then "-" else SquareName(ep.value)
  }

  /** The en-passant field setFEN accepts besides '-': a file letter and rank 3 or 6. */
  predicate EnPassantFieldValid(s: string) {
    |s| == 2 && IsFileChar(s[0]) && (s[1] == '3' || s[1] == '6')
  }

  /** A state getFEN can write and setFEN read back: the move number is positive and an
      en-passant square lies on rank 3 or 6. */
  predicate FenState(st: GameState) {
    st.fullmove >= 1 && (st.enPassant.Some? ==> RankOf(st.enPassant.value) == 2 || RankOf(st.enPassant.value) == 5)
  }

  /** getFEN. */
  function EncodeFen(st: GameState): string {
    Join([Placement(st.board), ColorField(st.activeColor), CastlingField(st.castling),
          EnPassantField(st.enPassant), NatString(st.halfmove), NatString(st.fullmove)], ' ')
  }

  function DecodeColor(f: string): Result<Color, FenError> {
    if f == "w" then Ok(White) else if f == "b" then Ok(Black) else Err(BadColor)
  }

  function DecodeCastling(f: string): Result<CastlingRights, FenError> {
    if CastlingFieldValid(f) then Ok(CastlingOf(f)) else Err(BadCastling)
  }

  function DecodeEnPassant(f: string): (r: Result<Option<Square>, FenError>)
    ensures r.Ok? && r.value.Some? ==> RankOf(r.value.value) == 2 || RankOf(r.value.value) == 5
  {
    if f == "-" then Ok(None)
    else if EnPassantFieldValid(f) then Ok(Some(AlgebraicToSquare(f)))
    else Err(BadEnPassant)
  }

  /** A counter field: parseInt must give a number of at least `least`. */
  function DecodeCounter(f: string, least: nat, err: FenError): (r: Result<nat, FenError>)
    ensures r.Ok? ==> r.value >= least
  {
    var n := ParseInt(f);
    if n.None? || n.value < least then Err(err) else Ok(n.value)
  }

  /** setFEN after the split: each field in turn, the first bad one giving the error. */
  function DecodeFields(parts: seq<string>): (r: Result<GameState, FenError>)
    requires |parts| == 6
    ensures r.Ok? ==> FenState(r.value)
  {
    match DecodePlacement(parts[0])
      case Err(e) => Err(e)
      case Ok(board) =>
        match DecodeColor(parts[1])
          case Err(e) => Err(e)
          case Ok(color) =>
            match DecodeCastling(parts[2])
              case Err(e) => Err(e)
              case Ok(rights) =>
                match DecodeEnPassant(parts[3])
                  case Err(e) => Err(e)
                  case Ok(ep) =>
                    match DecodeCounter(parts[4], 0, BadHalfmove)
                      case Err(e) => Err(e)
                      case Ok(half) =>
                        match DecodeCounter(parts[5], 1, BadFullmove)
                          case Err(e) => Err(e)
                          case Ok(full) => Ok(GameState(board, color, rights, ep, half, full))
  }

  /** setFEN: the state it installs, or the first error it throws. */
  function DecodeFen(s: string): (r: Result<GameState, FenError>)
    ensures r.Ok? ==> FenState(r.value)
  {
    var parts := Fields(s);
    if |parts| != 6 then Err(FieldCount(|parts|)) else DecodeFields(parts)
  }

  // ---------------------------------------------------------------------------
  // Round trip
  // ---------------------------------------------------------------------------

  lemma {:induction false} WordLenPrefix(w: string, rest: string)
    requires NoSpace(w) && (rest == [] || IsSpace(rest[0]))
    ensures WordLen(w + rest) == |w|
    decreases |w|
  {
    if w == [] {
      assert w + rest == rest;
    } else {
      assert (w + rest)[1..] == w[1..] + rest;
      WordLenPrefix(w[1..], rest);
    }
  }

  lemma TokensWord(w: string, rest: string)
    requires w != [] && NoSpace(w) && (rest == [] || IsSpace(rest[0]))
    ensures Tokens(w + rest) == [w] + Tokens(rest)
  {
    WordLenPrefix(w, rest);
    var s := w + rest;
    assert s[..|w|] == w;
    assert s[|w|..] == rest;
  }

  /** Splitting fields joined by single blanks gives the fields back, provided none is empty or
      holds a blank. */
  lemma {:induction false} TokensJoin(fields: seq<string>)
    requires forall j :: 0 <= j < |fields| ==> fields[j] != [] && NoSpace(fields[j])
    ensures Tokens(Join(fields, ' ')) == fields
    decreases |fields|
  {
    if |fields| == 1 {
      TokensWord(fields[0], []);
      assert fields[0] + [] == fields[0];
    } else if |fields| > 1 {
      var tail := Join(fields[1..], ' ');
      var rest := [' '] + tail;
      TokensWord(fields[0], rest);
      assert Join(fields, ' ') == fields[0] + rest;
      assert rest[1..] == tail;
      TokensJoin(fields[1..]);
      assert fields == [fields[0]] + fields[1..];
    }
  }

  lemma {:induction false} IndexOfAbsent(p: string, sep: char)
    requires sep !in p
    ensures IndexOf(p, sep) == |p|
    decreases |p|
  {
    if p != [] {
      assert sep !in p[1..];
      IndexOfAbsent(p[1..], sep);
    }
  }

  lemma {:induction false} IndexOfFirst(p: string, rest: string, sep: char)
    requires sep !in p
    ensures IndexOf(p + [sep] + rest, sep) == |p|
    decreases |p|
  {
    var s := p + [sep] + rest;
    if p == [] {
      assert s[0] == sep;
    } else {
      assert s[1..] == p[1..] + [sep] + rest;
      assert sep !in p[1..];
      IndexOfFirst(p[1..], rest, sep);
    }
  }

  /** Splitting parts joined by a separator none of them holds gives the parts back. */
  lemma {:induction false} SplitJoin(parts: seq<string>, sep: char)
    requires |parts| >= 1 && forall j :: 0 <= j < |parts| ==> sep !in parts[j]
    ensures SplitOn(Join(parts, sep), sep) == parts
    decreases |parts|
  {
    if |parts| == 1 {
      IndexOfAbsent(parts[0], sep);
    } else {
      var tail := Join(parts[1..], sep);
      assert Join(parts, sep) == parts[0] + [sep] + tail;
      SplitCons(parts[0], tail, sep);
      SplitJoin(parts[1..], sep);
      assert parts == [parts[0]] + parts[1..];
    }
  }

  /** A separator-free piece, the separator and a tail split into the piece and the tail's pieces. */
  lemma SplitCons(p: string, tail: string, sep: char)
    requires sep !in p
    ensures SplitOn(p + [sep] + tail, sep) == [p] + SplitOn(tail, sep)
  {
    var s := p + [sep] + tail;
    IndexOfFirst(p, tail, sep);
    assert s[..|p|] == p;
    assert s[|p| + 1..] == tail;
  }

  /** A run of e empty squares is written as one digit that setFEN reads back as e empty files. */
  lemma EmptyRunParse(e: nat, tail: string, rankNo: int, acc: Row)
    requires e <= 8
    ensures ParseRank(EmptyRun(e) + tail, rankNo, acc) == ParseRank(tail, rankNo, acc + Empties(e))
  {
    if e == 0 {
      assert EmptyRun(e) + tail == tail;
      assert acc + Empties(e) == acc;
    } else {
      var s := EmptyRun(e) + tail;
      assert s[0] == DigitChar(e) && s[1..] == tail;
    }
  }

  lemma PieceCharLetters(p: Piece)
    ensures PieceChar(p) in "KQRBNPkqrbnp"
    ensures !IsRankChar(PieceChar(p)) && !IsDigit(PieceChar(p))
  {
  }

  /** setFEN reads a rank written by getFEN back into the same squares; `e` empty squares are
      pending and `acc` holds the files already read. */
  lemma {:induction false} RankCharsParse(rest: Row, e: nat, acc: Row, rankNo: int)
    requires |acc| + e + |rest| == 8
    ensures ParseRank(RankChars(rest, e), rankNo, acc) == Ok(acc + Empties(e) + rest)
    decreases |rest|
  {
    if rest == [] {
      EmptyRunParse(e, [], rankNo, acc);
      assert EmptyRun(e) + [] == EmptyRun(e);
      assert acc + Empties(e) + rest == acc + Empties(e);
    } else if rest[0].None? {
      RankCharsParse(rest[1..], e + 1, acc, rankNo);
      EmptyStep(rest, e, acc, rankNo);
    } else {
      RankCharsParse(rest[1..], 0, acc + Empties(e) + [rest[0]], rankNo);
      PieceStep(rest, e, acc, rankNo);
    }
  }

  lemma EmptyStep(rest: Row, e: nat, acc: Row, rankNo: int)
    requires rest != [] && rest[0].None? && |acc| + e + |rest| == 8
    requires ParseRank(RankChars(rest[1..], e + 1), rankNo, acc) == Ok(acc + Empties(e + 1) + rest[1..])
    ensures ParseRank(RankChars(rest, e), rankNo, acc) == Ok(acc + Empties(e) + rest)
  {
    assert Empties(e + 1) == Empties(e) + [None];
    assert acc + Empties(e + 1) + rest[1..] == acc + Empties(e) + rest;
  }

  lemma PieceStep(rest: Row, e: nat, acc: Row, rankNo: int)
    requires rest != [] && rest[0].Some? && |acc| + e + |rest| == 8
    requires ParseRank(RankChars(rest[1..], 0), rankNo, acc + Empties(e) + [rest[0]])
      == Ok(acc + Empties(e) + [rest[0]] + Empties(0) + rest[1..])
    ensures ParseRank(RankChars(rest, e), rankNo, acc) == Ok(acc + Empties(e) + rest)
  {
    var p := rest[0].value;
    var tail := RankChars(rest[1..], 0);
    var acc' := acc + Empties(e);
    RankCharsPiece(rest, e);
    EmptyRunParse(e, [PieceChar(p)] + tail, rankNo, acc);
    PieceCharParse(p, tail, rankNo, acc');
    RowSplit(acc', rest);
  }

  /** The characters of a rank that continues with a piece: the pending run, the letter, the rest. */
  lemma RankCharsPiece(rest: Row, e: nat)
    requires rest != [] && rest[0].Some?
    ensures RankChars(rest, e) == EmptyRun(e) + ([PieceChar(rest[0].value)] + RankChars(rest[1..], 0))
  {
  }

  lemma RowSplit(acc: Row, rest: Row)
    requires rest != []
    ensures acc + [rest[0]] + Empties(0) + rest[1..] == acc + rest
  {
    assert Empties(0) == [];
    assert [rest[0]] + rest[1..] == rest;
  }

  /** A piece letter on a rank with room left fills the next file with that piece. */
  lemma PieceCharParse(p: Piece, tail: string, rankNo: int, acc: Row)
    requires |acc| < 8
    ensures ParseRank([PieceChar(p)] + tail, rankNo, acc) == ParseRank(tail, rankNo, acc + [Some(p)])
  {
    PieceCharLetters(p);
    PieceCharRoundTrip(p);
    assert ([PieceChar(p)] + tail)[1..] == tail;
  }

  lemma RankRoundTrip(b: Board, r: int, rankNo: int)
    requires 0 <= r < 8
    ensures ParseRank(RankString(b, r), rankNo, []) == Ok(RowOf(b, r))
  {
    RankCharsParse(RowOf(b, r), 0, [], rankNo);
    assert [] + Empties(0) + RowOf(b, r) == RowOf(b, r);
  }

  lemma {:induction false} ParseFenRows(b: Board, n: nat)
    requires n <= 8
    ensures ParseRows(RankStrings(b), n) == Ok(FenRows(b)[..n])
  {
    if n > 0 {
      ParseFenRows(b, n - 1);
      assert RankStrings(b)[n - 1] == RankString(b, 8 - n);
      assert FenRows(b)[n - 1] == RowOf(b, 8 - n);
      RankRoundTrip(b, 8 - n, 9 - n);
      assert FenRows(b)[..n] == FenRows(b)[..n - 1] + [FenRows(b)[n - 1]];
    } else {
      assert FenRows(b)[..n] == [];
    }
  }

  /** The first n FEN rows of a board, stacked, are its top n ranks. */
  lemma {:induction false} RevConcatRows(b: Board, n: nat)
    requires n <= 8
    ensures RevConcat(FenRows(b)[..n]) == b[8 * (8 - n)..]
  {
    if n > 0 {
      var rows := FenRows(b)[..n];
      assert rows[..n - 1] == FenRows(b)[..n - 1];
      RevConcatRows(b, n - 1);
      assert rows[n - 1] == b[8 * (8 - n) .. 8 * (9 - n)];
      assert b[8 * (8 - n)..] == b[8 * (8 - n) .. 8 * (9 - n)] + b[8 * (9 - n)..];
    }
  }

  lemma BoardOfRows(b: Board)
    ensures BoardOf(FenRows(b)) == b
  {
    RevConcatRows(b, 8);
    assert FenRows(b)[..8] == FenRows(b);
  }

  /** The characters getFEN writes for a rank: digits and piece letters. */
  lemma {:induction false} RankCharsClean(cells: Row, e: nat)
    ensures forall j :: 0 <= j < |RankChars(cells, e)| ==>
      IsDigit(RankChars(cells, e)[j]) || RankChars(cells, e)[j] in "KQRBNPkqrbnp"
    decreases |cells|
  {
    if cells != [] {
      if cells[0].None? {
        RankCharsClean(cells[1..], e + 1);
      } else {
        PieceCharLetters(cells[0].value);
        RankCharsClean(cells[1..], 0);
      }
    }
  }

  lemma {:induction false} JoinClean(parts: seq<string>, sep: char)
    requires !IsSpace(sep) && forall j :: 0 <= j < |parts| ==> NoSpace(parts[j])
    ensures NoSpace(Join(parts, sep))
    decreases |parts|
  {
    if |parts| > 1 {
      JoinClean(parts[1..], sep);
    }
  }

  /** A rank string holds digits and piece letters only: no blank and no '/'. */
  lemma RankStringClean(b: Board, r: int)
    requires 0 <= r < 8
    ensures NoSpace(RankString(b, r)) && '/' !in RankString(b, r)
  {
    var s := RankString(b, r);
    RankCharsClean(RowOf(b, r), 0);
    forall j | 0 <= j < |s|
      ensures !IsSpace(s[j]) && s[j] != '/'
    {
      assert IsDigit(s[j]) || s[j] in "KQRBNPkqrbnp";
    }
  }

  lemma PlacementClean(b: Board)
    ensures Placement(b) != [] && NoSpace(Placement(b))
    ensures forall j :: 0 <= j < 8 ==> '/' !in RankStrings(b)[j]
  {
    var strs := RankStrings(b);
    forall j | 0 <= j < 8
      ensures NoSpace(strs[j]) && '/' !in strs[j]
    {
      RankStringClean(b, 7 - j);
    }
    JoinClean(strs, '/');
    assert Join(strs, '/') == strs[0] + ['/'] + Join(strs[1..], '/');
  }

  /** setFEN reads the placement field of getFEN back into the same board. */
  lemma PlacementRoundTrip(b: Board)
    ensures DecodePlacement(Placement(b)) == Ok(b)
  {
    PlacementClean(b);
    SplitJoin(RankStrings(b), '/');
    ParseFenRows(b, 8);
    assert FenRows(b)[..8] == FenRows(b);
    BoardOfRows(b);
  }

  lemma ColorRoundTrip(c: Color)
    ensures DecodeColor(ColorField(c)) == Ok(c)
  {
  }

  lemma CastlingRoundTrip(c: CastlingRights)
    ensures DecodeCastling(CastlingField(c)) == Ok(c)
  {
    var a, b := if c.K then "K" else "", if c.Q then "Q" else "";
    var x, y := if c.k then "k" else "", if c.q then "q" else "";
    var s := a + b + x + y;
    LettersConcat(a, b);
    LettersConcat(a + b, x);
    LettersConcat(a + b + x, y);
    assert |s| == |a| + |b| + |x| + |y|;
    FourIn(a, b, x, y);
    assert 'K' !in b && 'K' !in x && 'K' !in y && ('K' in a <==> c.K);
    assert 'Q' !in a && 'Q' !in x && 'Q' !in y && ('Q' in b <==> c.Q);
    assert 'k' !in a && 'k' !in b && 'k' !in y && ('k' in x <==> c.k);
    assert 'q' !in a && 'q' !in b && 'q' !in x && ('q' in y <==> c.q);
    assert CastlingOf(s) == c;
    if s == "" {
      assert CastlingField(c) == "-" && CastlingOf("-") == c;
    } else {
      assert CastlingField(c) == s && CastlingFieldValid(s);
    }
  }

  /** A character occurs in four strings joined exactly when it occurs in one of them. */
  lemma FourIn(a: string, b: string, x: string, y: string)
    ensures forall ch :: ch in a + b + x + y <==> ch in a || ch in b || ch in x || ch in y
  {
  }

  /** Every character of s is one of the castling letters. */
  predicate CastlingLetters(s: string) {
    forall j :: 0 <= j < |s| ==> s[j] in "KQkq"
  }

  lemma LettersConcat(a: string, b: string)
    requires CastlingLetters(a) && CastlingLetters(b)
    ensures CastlingLetters(a + b)
  {
    forall j | 0 <= j < |a + b|
      ensures (a + b)[j] in "KQkq"
    {
      if j >= |a| {
        assert (a + b)[j] == b[j - |a|];
      }
    }
  }

  lemma EnPassantRoundTrip(ep: Option<Square>)
    requires ep.Some? ==> RankOf(ep.value) == 2 || RankOf(ep.value) == 5
    ensures DecodeEnPassant(EnPassantField(ep)) == Ok(ep)
  {
    if ep.Some? {
      SquareNameRoundTrip(ep.value);
    }
  }

  lemma CounterRoundTrip(n: nat, least: nat, err: FenError)
    requires n >= least
    ensures DecodeCounter(NatString(n), least, err) == Ok(n)
  {
    ParseNatString(n);
  }

  /** setFEN installs exactly the state getFEN wrote, for every state whose move number is
      positive and whose en-passant square is on rank 3 or 6. */
  lemma FenRoundTrip(st: GameState)
    requires FenState(st)
    ensures DecodeFen(EncodeFen(st)) == Ok(st)
  {
    FenFields(st);
    PlacementRoundTrip(st.board);
    ColorRoundTrip(st.activeColor);
    CastlingRoundTrip(st.castling);
    EnPassantRoundTrip(st.enPassant);
    CounterRoundTrip(st.halfmove, 0, BadHalfmove);
    CounterRoundTrip(st.fullmove, 1, BadFullmove);
  }

  /** The five fields after the placement are non-empty and hold no blank. */
  lemma ShortFieldsClean(st: GameState)
    ensures ColorField(st.activeColor) != [] && NoSpace(ColorField(st.activeColor))
    ensures CastlingField(st.castling) != [] && NoSpace(CastlingField(st.castling))
    ensures EnPassantField(st.enPassant) != [] && NoSpace(EnPassantField(st.enPassant))
    ensures NatString(st.halfmove) != [] && NoSpace(NatString(st.halfmove))
    ensures NatString(st.fullmove) != [] && NoSpace(NatString(st.fullmove))
  {
    DigitsNoSpace(NatString(st.halfmove));
    DigitsNoSpace(NatString(st.fullmove));
  }

  lemma DigitsNoSpace(s: string)
    requires forall j :: 0 <= j < |s| ==> IsDigit(s[j])
    ensures NoSpace(s)
  {
  }

  /** The six fields of getFEN's string are found again by setFEN's split. */
  lemma FenFields(st: GameState)
    ensures Fields(EncodeFen(st)) == [Placement(st.board), ColorField(st.activeColor), CastlingField(st.castling),
                                      EnPassantField(st.enPassant), NatString(st.halfmove), NatString(st.fullmove)]
  {
    var fields := [Placement(st.board), ColorField(st.activeColor), CastlingField(st.castling),
                   EnPassantField(st.enPassant), NatString(st.halfmove), NatString(st.fullmove)];
    PlacementClean(st.board);
    ShortFieldsClean(st);
    assert forall j :: 0 <= j < 6 ==> fields[j] != [] && NoSpace(fields[j]);
    TokensJoin(fields);
  }

  /** Whatever setFEN accepts, getFEN writes in a form setFEN reads back to the same state. */
  lemma FenFixedPoint(s: string)
    requires DecodeFen(s).Ok?
    ensures DecodeFen(EncodeFen(DecodeFen(s).value)) == DecodeFen(s)
  {
    FenRoundTrip(DecodeFen(s).value);
  }

  /** Distinct states have distinct FEN strings. */
  lemma EncodeFenInjective(a: GameState, b: GameState)
    requires FenState(a) && FenState(b) && EncodeFen(a) == EncodeFen(b)
    ensures a == b
  {
    FenRoundTrip(a);
    FenRoundTrip(b);
  }

  /** A string in getFEN's canonical form (maximal empty runs, castling letters in KQkq order,
      counters without leading zeros) is accepted by setFEN and written back unchanged by getFEN. */
  lemma CanonicalFenRoundTrip(s: string, st: GameState)
    requires FenState(st) && s == EncodeFen(st)
    ensures DecodeFen(s).Ok? && EncodeFen(DecodeFen(s).value) == s
  {
    FenRoundTrip(st);
  }

  // ---------------------------------------------------------------------------
  // The loops of getFEN and setFEN
  // ---------------------------------------------------------------------------

  /** getFEN's placement loop: the ranks from 8 down, joined with '/'. */
  method EncodePlacement(board: Board) returns (placement: string)
    ensures placement == Placement(board)
  {
    var ranks: seq<string> := [];
    for i := 0 to 8
      invariant ranks == RankStrings(board)[..i]
    {
      var rankStr := EncodeRank(board, 7 - i);
      assert RankStrings(board)[..i + 1] == RankStrings(board)[..i] + [RankString(board, 7 - i)];
      ranks := ranks + [rankStr];
    }
    assert RankStrings(board)[..8] == RankStrings(board);
    placement := Join(ranks, '/');
  }

  /** getFEN's inner loop over one rank: count empty squares, write the count before a piece and
      at the end of the rank. */
  method EncodeRank(board: Board, rank: int) returns (rankStr: string)
    requires 0 <= rank < 8
    ensures rankStr == RankString(board, rank)
  {
    ghost var row := RowOf(board, rank);
    var empty := 0;
    rankStr := "";
    for file := 0 to 8
      invariant rankStr + RankChars(row[file..], empty) == RankChars(row, 0)
    {
      var piece := board[rank * 8 + file];
      assert piece == row[file];
      RankCharsStep(row, file, empty);
      if piece.Some? {
        RunThenLetter(rankStr, empty, PieceChar(piece.value), RankChars(row[file + 1..], 0));
        if empty > 0 {
          rankStr := rankStr + NatString(empty);
          empty := 0;
        }
        rankStr := rankStr + [PieceChar(piece.value)];
      } else {
        empty := empty + 1;
      }
    }
    assert row[8..] == [];
    if empty > 0 {
      rankStr := rankStr + NatString(empty);
    }
  }

  /** One file of a rank: a piece ends the pending run and writes its letter, an empty file
      lengthens the run. */
  lemma RankCharsStep(row: Row, file: int, e: nat)
    requires 0 <= file < |row|
    ensures row[file].Some? ==>
      RankChars(row[file..], e) == EmptyRun(e) + [PieceChar(row[file].value)] + RankChars(row[file + 1..], 0)
    ensures row[file].None? ==> RankChars(row[file..], e) == RankChars(row[file + 1..], e + 1)
  {
    assert row[file..][0] == row[file] && row[file..][1..] == row[file + 1..];
  }

  /** Writing the pending run, then a letter, in front of the rest of the rank. */
  lemma RunThenLetter(before: string, e: nat, c: char, rest: string)
    ensures before + (EmptyRun(e) + [c] + rest) == (if e > 0 then before + NatString(e) else before) + [c] + rest
  {
    if e == 0 {
      assert EmptyRun(e) + [c] + rest == [c] + rest;
    }
  }

  /** The files a rank scan has filled in so far, padded with empty files to eight. */
  function Padded(cells: Row): (row: Row)
    ensures |row| == 8
  {
    if |cells| >= 8 then cells[..8] else cells + Empties(8 - |cells|)
  }

  /** Empty files added to the scanned files leave the padded rank as it was. */
  lemma PaddedEmpties(cells: Row, n: nat)
    ensures Padded(cells + Empties(n)) == Padded(cells)
  {
    var grown := cells + Empties(n);
    forall j | 0 <= j < 8
      ensures Padded(grown)[j] == Padded(cells)[j]
    {
      if j < |cells| {
        assert grown[j] == cells[j];
      } else if j < |grown| {
        assert grown[j] == Empties(n)[j - |cells|];
      }
    }
  }

  /** A piece on the next file, while fewer than eight are filled, is written into the padded rank. */
  lemma PaddedPiece(cells: Row, p: Option<Piece>)
    requires |cells| < 8
    ensures Padded(cells + [p]) == Padded(cells)[|cells| := p]
  {
  }

  /** Changing index i of s, inside [lo, hi): the slice changes at i - lo and the rest stays. */
  lemma SliceUpdate<T>(s: seq<T>, lo: int, hi: int, i: int, v: T)
    requires 0 <= lo <= i < hi <= |s|
    ensures s[i := v][lo..hi] == s[lo..hi][i - lo := v]
    ensures s[i := v][..lo] == s[..lo] && s[i := v][hi..] == s[hi..]
  {
  }

  /** setFEN's scan of one rank string into rank `rank` of the board being built. */
  method ParseRankInto(board: array<Option<Piece>>, chars: string, rank: int, rankNo: int) returns (r: Outcome<FenError>)
    requires board.Length == 64 && 0 <= rank < 8
    requires board[rank * 8 .. rank * 8 + 8] == Empties(8)
    modifies board
    ensures board[..rank * 8] == old(board[..rank * 8]) && board[rank * 8 + 8..] == old(board[rank * 8 + 8..])
    ensures r.Pass? <==> ParseRank(chars, rankNo, []).Ok?
    ensures r.Fail? ==> ParseRank(chars, rankNo, []) == Err(r.error)
    ensures r.Pass? ==> board[rank * 8 .. rank * 8 + 8] == ParseRank(chars, rankNo, []).value
  {
    var file := 0;
    ghost var cells: Row := [];
    for j := 0 to |chars|
      invariant file == |cells|
      invariant ParseRank(chars[j..], rankNo, cells) == ParseRank(chars, rankNo, [])
      invariant board[rank * 8 .. rank * 8 + 8] == Padded(cells)
      invariant board[..rank * 8] == old(board[..rank * 8]) && board[rank * 8 + 8..] == old(board[rank * 8 + 8..])
    {
      var ch := chars[j];
      assert chars[j..][0] == ch && chars[j..][1..] == chars[j + 1..];
      if '1' <= ch <= '8' {
        PaddedEmpties(cells, DigitValue(ch));
        file := file + DigitValue(ch);
        cells := cells + Empties(DigitValue(ch));
      } else {
        if file >= 8 {
          return Fail(TooManySquares(rankNo));
        }
        var piece := FenCharToPiece(ch);
        if piece.None? {
          return Fail(BadPiece(ch));
        }
        ghost var before := board[..];
        board[rank * 8 + file] := piece;
        assert board[..] == before[rank * 8 + file := piece];
        SliceUpdate(before, rank * 8, rank * 8 + 8, rank * 8 + file, piece);
        PaddedPiece(cells, piece);
        file := file + 1;
        cells := cells + [piece];
      }
    }
    assert chars[|chars|..] == [];
    if file != 8 {
      return Fail(RankSize(rankNo, file));
    }
    return Pass;
  }

  /** setFEN's placement parsing: split on '/', require eight ranks, scan each into a fresh
      board. */
  method ParsePlacement(placement: string) returns (r: Result<Board, FenError>)
    ensures r == DecodePlacement(placement)
  {
    var rankStrs := SplitOn(placement, '/');
    if |rankStrs| != 8 {
      return Err(RankCount(|rankStrs|));
    }
    var board := new Option<Piece>[64](_ => None);
    ghost var rows: seq<Row> := [];
    for i := 0 to 8
      invariant ParseRows(rankStrs, i) == Ok(rows)
      invariant board[..] == Empties(64 - 8 * i) + RevConcat(rows)
    {
      var scanned;
      scanned, rows := ParseRowInto(board, rankStrs, i, rows);
      if scanned.Fail? {
        RowsErrorPersists(rankStrs, i + 1, 8);
        return Err(scanned.error);
      }
    }
    assert Empties(0) == [];
    assert board[..] == BoardOf(rows);
    return Ok(board[..]);
  }

  /** One pass of setFEN's outer loop: FEN row i is written to rank 8 - i below the rows already
      read. */
  method ParseRowInto(board: array<Option<Piece>>, strs: seq<string>, i: nat, ghost rows: seq<Row>)
      returns (r: Outcome<FenError>, ghost rows': seq<Row>)
    requires |strs| == 8 && i < 8 && board.Length == 64
    requires ParseRows(strs, i) == Ok(rows)
    requires board[..] == Empties(64 - 8 * i) + RevConcat(rows)
    modifies board
    ensures r.Fail? ==> ParseRows(strs, i + 1) == Err(r.error)
    ensures r.Pass? ==> ParseRows(strs, i + 1) == Ok(rows') && board[..] == Empties(64 - 8 * (i + 1)) + RevConcat(rows')
  {
    var rank := 7 - i;
    EmptyPrefix(board[..], 64 - 8 * i, RevConcat(rows), rank * 8);
    r := ParseRankInto(board, strs[i], rank, 8 - i);
    rows' := rows;
    if r.Pass? {
      var row := ParseRank(strs[i], 8 - i, []).value;
      StackRow(board[..], rows, row, i);
      rows' := rows + [row];
    }
  }

  /** The slices of a board that is k empty squares followed by `rest`. */
  lemma EmptyPrefix(b: seq<Option<Piece>>, k: nat, rest: seq<Option<Piece>>, lo: nat)
    requires b == Empties(k) + rest && lo + 8 <= k
    ensures b[lo .. lo + 8] == Empties(8) && b[..lo] == Empties(lo) && b[lo + 8..] == Empties(k - lo - 8) + rest
  {
  }

  /** Writing FEN row i (rank 8 - i) below the rows already read extends the stack. */
  lemma StackRow(b: seq<Option<Piece>>, rows: seq<Row>, row: Row, i: nat)
    requires i < 8 && |rows| == i && |row| == 8 && forall j :: 0 <= j < i ==> |rows[j]| == 8
    requires |b| == 64 && b[..(7 - i) * 8] == Empties((7 - i) * 8)
    requires b[(7 - i) * 8 .. (8 - i) * 8] == row && b[(8 - i) * 8..] == Empties(0) + RevConcat(rows)
    ensures b == Empties(64 - 8 * (i + 1)) + RevConcat(rows + [row])
  {
    assert (rows + [row])[..i] == rows;
    assert b == b[..(7 - i) * 8] + b[(7 - i) * 8 .. (8 - i) * 8] + b[(8 - i) * 8..];
  }

  /** Once a rank is bad, parsing more ranks keeps that error. */
  lemma {:induction false} RowsErrorPersists(strs: seq<string>, n: nat, m: nat)
    requires n <= m <= |strs| && ParseRows(strs, n).Err?
    ensures ParseRows(strs, m) == ParseRows(strs, n)
    decreases m - n
  {
    if n < m {
      RowsErrorPersists(strs, n, m - 1);
    }
  }
}
