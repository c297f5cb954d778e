/**
 * Standard Algebraic Notation (src/chess/engine.ts moveSAN, getSAN, getDisambiguation and
 * appendCheckSuffix): reading a SAN move into the UCI move it stands for, and writing the SAN of a
 * recorded move.
 */
module San {
  import opened Wrappers
  import opened Types
  import opened Squares
  import opened Notation
  import opened Fen
  import opened Generators
  import opened Legality
  import opened Transition
  import opened Moves

  // ---------------------------------------------------------------------------
  // Cleaning: san.replace(/[+#]$/, '').trim()
  // ---------------------------------------------------------------------------

  /** s without its leading blanks. */
  function TrimStart(s: string): (t: string)
    ensures |t| <= |s| && t == s[|s| - |t|..]
    ensures t != [] ==> !IsSpace(t[0])
    ensures forall j :: 0 <= j < |s| - |t| ==> IsSpace(s[j])
  {
    if s != [] && IsSpace(s[0]) then TrimStart(s[1..]) else s
  }

  /** s without its trailing blanks. */
  function TrimEnd(s: string): (t: string)
    ensures |t| <= |s| && t == s[..|t|]
    ensures t != [] ==> !IsSpace(t[|t| - 1])
    ensures forall j :: |t| <= j < |s| ==> IsSpace(s[j])
  {
    if s != [] && IsSpace(s[|s| - 1]) then TrimEnd(s[..|s| - 1]) else s
  }

  function Trim(s: string): string {
    TrimEnd(TrimStart(s))
  }

  /** A string that neither starts nor ends with a blank is its own trim. */
  lemma TrimClean(s: string)
    requires s != [] && !IsSpace(s[0]) && !IsSpace(s[|s| - 1])
    ensures Trim(s) == s
  {
    assert TrimStart(s) == s;
  }

  /** One trailing '+' or '#' removed, then the blanks at both ends. */
  function Cleaned(san: string): string {
    Trim(if |san| > 0 && san[|san| - 1] in "+#" then san[..|san| - 1] else san)
  }

  /** A move text written without blanks and not ending in '+' or '#' is recovered from itself
      followed by any check suffix. */
  lemma CleanedSuffix(text: string, suffix: string)
    requires text != [] && !IsSpace(text[0]) && !IsSpace(text[|text| - 1]) && text[|text| - 1] !in "+#"
    requires suffix in {"", "+", "#"}
    ensures Cleaned(text + suffix) == text
  {
    var s := text + suffix;
    if suffix != "" {
      assert s[..|s| - 1] == text;
    }
    TrimClean(text);
  }

  // ---------------------------------------------------------------------------
  // Parsing a non-castling SAN move
  // ---------------------------------------------------------------------------

  /** What the parser reads from a SAN move: the piece kind, the file and rank hints (0-based),
      the target square and the promotion. */
  datatype SanMove = SanMove(kind: PieceKind, fileHint: Option<int>, rankHint: Option<int>, target: Square,
                             promotion: Option<PieceKind>)

  predicate IsSanPromotion(c: char) {
    c in "QRBNqrbn"
  }

  /** The length of the promotion suffix at the end of core: "=X" (2), a bare "X" (1) or none (0). */
  function PromoSuffix(core: string): (n: nat)
    ensures n <= |core| && n <= 2
    ensures n > 0 ==> IsSanPromotion(core[|core| - 1])
    ensures n == 0 ==> core == [] || !IsSanPromotion(core[|core| - 1])
  {
    if |core| >= 2 && core[|core| - 2] == '=' && IsSanPromotion(core[|core| - 1]) then 2
    else if |core| >= 1 && IsSanPromotion(core[|core| - 1]) then 1
    else 0
  }

  /** s with its first occurrence of c removed (String.replace with a string pattern). */
  function RemoveFirst(s: string, c: char): (t: string)
    ensures c in s ==> |t| == |s| - 1
    ensures c !in s ==> t == s
  {
    if s == [] then []
    else if s[0] == c then s[1..]
    else [s[0]] + RemoveFirst(s[1..], c)
  }

  /** Removing c from a + b removes it from b when a does not contain it. */
  lemma {:induction false} RemoveFirstSkip(a: string, b: string, c: char)
    requires c !in a
    ensures RemoveFirst(a + b, c) == a + RemoveFirst(b, c)
  {
    if a == [] {
      assert a + b == b;
    } else {
      var t := a[1..];
      assert a == [a[0]] + t;
      assert a + b == [a[0]] + (t + b);
      assert c !in t;
      RemoveFirstSkip(t, b, c);
      RemoveFirstCons(a[0], t + b, c);
    }
  }

  /** A character other than c in front is kept in front. */
  lemma RemoveFirstCons(x: char, rest: string, c: char)
    requires x != c
    ensures RemoveFirst([x] + rest, c) == [x] + RemoveFirst(rest, c)
  {
    assert ([x] + rest)[1..] == rest;
  }

  /** The file of the last file letter in s: the disambiguation loop lets the last one win. */
  function LastFile(s: string): (r: Option<int>)
    ensures r.Some? ==> 0 <= r.value < 8
  {
    if s == [] then None
    else if IsFileChar(s[|s| - 1]) then Some(s[|s| - 1] as int - 'a' as int)
    else LastFile(s[..|s| - 1])
  }

  /** The rank of the last rank digit in s. */
  function LastRank(s: string): (r: Option<int>)
    ensures r.Some? ==> 0 <= r.value < 8
  {
    if s == [] then None
    else if IsRankChar(s[|s| - 1]) then Some(s[|s| - 1] as int - '1' as int)
    else LastRank(s[..|s| - 1])
  }

  /** The file hint is set exactly when s holds a file letter, and then it is the file of a letter
      after which no other file letter follows. */
  lemma {:induction false} LastFileSound(s: string)
    ensures LastFile(s).None? <==> forall j :: 0 <= j < |s| ==> !IsFileChar(s[j])
    ensures LastFile(s).Some? ==>
      exists j :: 0 <= j < |s| && IsFileChar(s[j]) && LastFile(s).value == s[j] as int - 'a' as int &&
                  forall k :: j < k < |s| ==> !IsFileChar(s[k])
  {
    if s != [] {
      var n := |s| - 1;
      LastFileSound(s[..n]);
      if !IsFileChar(s[n]) && LastFile(s[..n]).Some? {
        var j :| 0 <= j < n && IsFileChar(s[..n][j]) && LastFile(s[..n]).value == s[..n][j] as int - 'a' as int &&
          forall k :: j < k < n ==> !IsFileChar(s[..n][k]);
        assert IsFileChar(s[j]) && forall k :: j < k < |s| ==> !IsFileChar(s[k]);
      }
    }
  }

  /** The rank hint is set exactly when s holds a rank digit, and then it is the rank of a digit
      after which no other rank digit follows. */
  lemma {:induction false} LastRankSound(s: string)
    ensures LastRank(s).None? <==> forall j :: 0 <= j < |s| ==> !IsRankChar(s[j])
    ensures LastRank(s).Some? ==>
      exists j :: 0 <= j < |s| && IsRankChar(s[j]) && LastRank(s).value == s[j] as int - '1' as int &&
                  forall k :: j < k < |s| ==> !IsRankChar(s[k])
  {
    if s != [] {
      var n := |s| - 1;
      LastRankSound(s[..n]);
      if !IsRankChar(s[n]) && LastRank(s[..n]).Some? {
        var j :| 0 <= j < n && IsRankChar(s[..n][j]) && LastRank(s[..n]).value == s[..n][j] as int - '1' as int &&
          forall k :: j < k < n ==> !IsRankChar(s[..n][k]);
        assert IsRankChar(s[j]) && forall k :: j < k < |s| ==> !IsRankChar(s[k]);
      }
    }
  }

  /** The piece letter at the front of the move and the rest; without a letter, a pawn. */
  function SplitPrefix(cleaned: string): (r: (PieceKind, string))
    ensures cleaned == SanPrefix(r.0) + r.1
    ensures r.0 == Pawn ==> cleaned == [] || cleaned[0] !in "KQRBN"
  {
    if |cleaned| > 0 && cleaned[0] in "KQRBN" then
      var k := SanPrefixToKind(cleaned[0]).value;
      SanPrefixRoundTrip(k);
      (k, cleaned[1..])
    else (Pawn, cleaned)
  }

  /** The promotion suffix "=X" or "X" split off the end of the move, and the piece it names. */
  function SplitPromotion(core: string): (r: (string, Option<PieceKind>))
    ensures |r.0| <= |core| && r.0 == core[..|r.0|]
    ensures r.1.Some? <==> |r.0| < |core|
    ensures r.1.Some? ==> r.1 == PromotionCharToKind(core[|core| - 1])
    ensures |core| > 0 && !IsSanPromotion(core[|core| - 1]) ==> r == (core, None)
  {
    var n := PromoSuffix(core);
    assert core[..|core| - 0] == core;
    (core[..|core| - n], if n > 0 then PromotionCharToKind(core[|core| - 1]) else None)
  }

  /** The length of a string as JavaScript counts it: one UTF-16 unit per character up to U+FFFF,
      two (a surrogate pair) for each character above. */
  function Utf16Length(s: string): (n: nat)
    ensures |s| <= n <= 2 * |s|
    ensures (forall j :: 0 <= j < |s| ==> s[j] as int <= 0xFFFF) ==> n == |s|
    decreases |s|
  {
    if s == [] then 0 else Utf16Length(s[..|s| - 1]) + (if s[|s| - 1] as int > 0xFFFF then 2 else 1)
  }

  /** What is left after the promotion: the first 'x' removed, the last two characters as the
      target square, and the characters before them as the hints. The length test counts UTF-16
      units; a body of one character above U+FFFF passes it and fails the square test. Past the
      length test, the last two units form a square name exactly when the last two characters do,
      since a square name has no surrogates. */
  function ParseBody(kind: PieceKind, body: string, promotion: Option<PieceKind>): (r: Result<SanMove, MoveError>)
    ensures r.Err? ==> r.error in {InvalidSan, InvalidSanTarget}
    ensures r.Err? ==> (r.error == InvalidSan <==> Utf16Length(RemoveFirst(body, 'x')) < 2)
    ensures r.Ok? ==> r.value.kind == kind && r.value.promotion == promotion
  {
    var core := RemoveFirst(body, 'x');
    if Utf16Length(core) < 2 then Err(InvalidSan)
    else if |core| < 2 || !IsSquareName(core[|core| - 2..]) then Err(InvalidSanTarget)
    else
      var hints := core[..|core| - 2];
      Ok(SanMove(kind, LastFile(hints), LastRank(hints), AlgebraicToSquare(core[|core| - 2..]), promotion))
  }

  /** A body of one character above U+FFFF is two UTF-16 units long, so it gets past the length
      test and is refused as a bad target square. */
  lemma AstralBodyIsBadTarget()
    ensures Utf16Length("\U{1F600}") == 2
    ensures ParseBody(Pawn, "\U{1F600}", None) == Err(InvalidSanTarget)
  {
    assert RemoveFirst("\U{1F600}", 'x') == "\U{1F600}";
  }

  /** moveSAN after the castling checks: the piece prefix, the promotion suffix, then the body. */
  function SanParse(cleaned: string): (r: Result<SanMove, MoveError>)
    ensures r.Err? ==> r.error in {InvalidSan, InvalidSanTarget}
  {
    var p := SplitPrefix(cleaned);
    var q := SplitPromotion(p.1);
    ParseBody(p.0, q.0, q.1)
  }

  /** A piece letter is read back as its kind. */
  lemma SplitPrefixOf(kind: PieceKind, rest: string)
    requires kind != Pawn
    ensures SplitPrefix(SanPrefix(kind) + rest) == (kind, rest)
  {
    var cleaned := SanPrefix(kind) + rest;
    SanPrefixRoundTrip(kind);
    assert cleaned[0] == SanPrefix(kind)[0];
    assert cleaned[1..] == rest;
  }

  /** Removing the first 'x' from hints, a capture mark and a target square leaves the hints and
      the target. */
  lemma RemoveCapture(hints: string, cap: string, sq: string)
    requires 'x' !in hints && 'x' !in sq && cap in {"", "x"}
    ensures RemoveFirst(hints + cap + sq, 'x') == hints + sq
  {
    assert hints + cap + sq == hints + (cap + sq);
    RemoveFirstSkip(hints, cap + sq, 'x');
    if cap == "x" {
      assert (cap + sq)[0] == 'x' && (cap + sq)[1..] == sq;
    } else {
      assert cap + sq == sq;
    }
  }

  /** A body whose 'x' removal leaves hints and a target square is read back as the target and the
      last file and rank among the hints. */
  lemma ParseBodyOf(kind: PieceKind, body: string, hints: string, sq: string, promotion: Option<PieceKind>)
    requires IsSquareName(sq) && RemoveFirst(body, 'x') == hints + sq
    ensures ParseBody(kind, body, promotion) ==
            Ok(SanMove(kind, LastFile(hints), LastRank(hints), AlgebraicToSquare(sq), promotion))
  {
    var core := hints + sq;
    assert core[|core| - 2..] == sq && core[..|core| - 2] == hints;
  }

  /** A piece move written as prefix, hints, optional 'x' and target square parses back to its
      kind, the last file and rank of the hints, the target and no promotion. */
  lemma ParsePieceText(kind: PieceKind, hints: string, cap: string, sq: string)
    requires kind != Pawn && IsSquareName(sq) && cap in {"", "x"} && 'x' !in hints
    ensures SanParse(SanPrefix(kind) + hints + cap + sq) ==
            Ok(SanMove(kind, LastFile(hints), LastRank(hints), AlgebraicToSquare(sq), None))
  {
    var rest := hints + cap + sq;
    assert SanPrefix(kind) + hints + cap + sq == SanPrefix(kind) + rest;
    SplitPrefixOf(kind, rest);
    assert rest[|rest| - 1] == sq[1];
    assert SplitPromotion(rest) == (rest, None);
    RemoveCapture(hints, cap, sq);
    ParseBodyOf(kind, rest, hints, sq, None);
  }

  /** moveSAN's parse: the piece prefix, the promotion suffix, then the body with its hint loop. */
  method ParseSan(cleaned: string) returns (r: Result<SanMove, MoveError>)
    ensures r == SanParse(cleaned)
  {
    var kind, core := ReadPrefix(cleaned);
    var body, promotion := ReadPromotion(core);
    r := ReadBody(kind, body, promotion);
  }

  /** The leading piece letter, if any, and the text after it. */
  method ReadPrefix(cleaned: string) returns (kind: PieceKind, core: string)
    ensures (kind, core) == SplitPrefix(cleaned)
  {
    kind := Pawn;
    var pos := 0;
    if |cleaned| > 0 && cleaned[0] in "KQRBN" {
      kind := SanPrefixToKind(cleaned[0]).value;
      pos := 1;
    }
    core := cleaned[pos..];
  }

  /** The promotion suffix, if any, cut off the end. */
  method ReadPromotion(core: string) returns (body: string, promotion: Option<PieceKind>)
    ensures (body, promotion) == SplitPromotion(core)
  {
    body := core;
    var promoStr := "";
    var n := PromoSuffix(core);
    if n > 0 {
      promoStr := [core[|core| - 1]];
      body := core[..|core| - n];
    }
    promotion := None;
    if promoStr != "" {
      promotion := PromotionCharToKind(promoStr[0]);
    }
  }

  /** The capture mark dropped, the target square read from the end, the hints from the rest. */
  method ReadBody(kind: PieceKind, body: string, promotion: Option<PieceKind>) returns (r: Result<SanMove, MoveError>)
    ensures r == ParseBody(kind, body, promotion)
  {
    var core := RemoveFirst(body, 'x');
    if Utf16Length(core) < 2 {
      return Err(InvalidSan);
    }
    if |core| < 2 {
      return Err(InvalidSanTarget);
    }
    var targetStr := core[|core| - 2..];
    if !IsSquareName(targetStr) {
      return Err(InvalidSanTarget);
    }
    var toIndex := AlgebraicToSquare(targetStr);
    var fileHint, rankHint := ReadHints(core[..|core| - 2]);
    r := Ok(SanMove(kind, fileHint, rankHint, toIndex, promotion));
  }

  /** The disambiguation loop: each file letter sets the file hint, each rank digit the rank hint,
      other characters are skipped. */
  method ReadHints(disambig: string) returns (fileHint: Option<int>, rankHint: Option<int>)
    ensures fileHint == LastFile(disambig) && rankHint == LastRank(disambig)
  {
    fileHint, rankHint := None, None;
    for j := 0 to |disambig|
      invariant fileHint == LastFile(disambig[..j]) && rankHint == LastRank(disambig[..j])
    {
      var ch := disambig[j];
      assert disambig[..j + 1][..j] == disambig[..j];
      if 'a' <= ch <= 'h' {
        fileHint := Some(ch as int - 'a' as int);
      } else if '1' <= ch <= '8' {
        rankHint := Some(ch as int - '1' as int);
      }
    }
    assert disambig[..|disambig|] == disambig;
  }

  // ---------------------------------------------------------------------------
  // Finding the moving piece
  // ---------------------------------------------------------------------------

  // The search and the disambiguation consult getLegalMoves for every square; they are stated
  // over `legal`, one list of targets per square, which LegalTable(st) fills for position st.

  /** Square i holds a piece of the parsed kind of the side to move, agrees with the hints, and
      has the target among its legal moves. */
  predicate Matches(st: GameState, legal: seq<seq<Square>>, m: SanMove, i: Square)
    requires |legal| == 64
  {
    st.board[i] == Some(Piece(m.kind, st.activeColor)) &&
    (m.fileHint.Some? ==> FileOf(i) == m.fileHint.value) &&
    (m.rankHint.Some? ==> RankOf(i) == m.rankHint.value) &&
    m.target in legal[i]
  }

  /** The search over the squares below n: the one match so far, or ambiguity at the second. */
  function Scan(st: GameState, legal: seq<seq<Square>>, m: SanMove, n: nat): Result<Option<Square>, MoveError>
    requires |legal| == 64 && n <= 64
  {
    if n == 0 then Ok(None)
    else
      match Scan(st, legal, m, n - 1)
        case Err(e) => Err(e)
        case Ok(None) => if Matches(st, legal, m, n - 1) then Ok(Some(n - 1)) else Ok(None)
        case Ok(Some(f)) => if Matches(st, legal, m, n - 1) then Err(AmbiguousSan) else Ok(Some(f))
  }

  /** The search finds the only matching square, reports none when nothing matches, and reports
      ambiguity only when two squares match. */
  lemma {:induction false} ScanSound(st: GameState, legal: seq<seq<Square>>, m: SanMove, n: nat)
    requires |legal| == 64 && n <= 64
    ensures Scan(st, legal, m, n).Ok? && Scan(st, legal, m, n).value.Some? ==>
      var f := Scan(st, legal, m, n).value.value;
      f < n && Matches(st, legal, m, f) && forall j :: 0 <= j < n && j != f ==> !Matches(st, legal, m, j)
    ensures Scan(st, legal, m, n) == Ok(None) ==> forall j :: 0 <= j < n ==> !Matches(st, legal, m, j)
    ensures Scan(st, legal, m, n).Err? ==>
      Scan(st, legal, m, n).error == AmbiguousSan &&
      exists j, k :: 0 <= j < k < n && Matches(st, legal, m, j) && Matches(st, legal, m, k)
  {
    if n > 0 {
      ScanSound(st, legal, m, n - 1);
      var prev := Scan(st, legal, m, n - 1);
      if prev.Ok? && prev.value.Some? && Matches(st, legal, m, n - 1) {
        var f := prev.value.value;
        assert 0 <= f < n - 1 && Matches(st, legal, m, f) && Matches(st, legal, m, n - 1);
      }
    }
  }

  /** A square that is the only match is found. */
  lemma {:induction false} ScanUnique(st: GameState, legal: seq<seq<Square>>, m: SanMove, n: nat, f: Square)
    requires |legal| == 64 && n <= 64
    requires Matches(st, legal, m, f) && forall j: Square :: j != f ==> !Matches(st, legal, m, j)
    ensures Scan(st, legal, m, n) == if n <= f then Ok(None) else Ok(Some(f))
  {
    if n > 0 {
      ScanUnique(st, legal, m, n - 1, f);
    }
  }

  /** Once ambiguous, the search stays ambiguous. */
  lemma {:induction false} ScanErrPersists(st: GameState, legal: seq<seq<Square>>, m: SanMove, i: nat, n: nat)
    requires |legal| == 64 && i <= n <= 64 && Scan(st, legal, m, i).Err?
    ensures Scan(st, legal, m, n) == Scan(st, legal, m, i)
    decreases n - i
  {
    if i < n {
      ScanErrPersists(st, legal, m, i + 1, n);
    }
  }

  /** One pass of moveSAN's search loop: the square holds a piece of the move's kind and of the
      side to move, agrees with the hints, and has the target among its legal moves. */
  method IsMover(st: GameState, m: SanMove, i: Square) returns (b: bool)
    ensures b == Matches(st, LegalTable(st), m, i)
  {
    var p := st.board[i];
    if p.None? || p.value.kind != m.kind || p.value.color != st.activeColor {
      return false;
    }
    if m.fileHint.Some? && i % 8 != m.fileHint.value {
      return false;
    }
    if m.rankHint.Some? && i / 8 != m.rankHint.value {
      return false;
    }
    var legal := GetLegalMoves(st, i);
    LegalTableAt(st, i);
    b := m.target in legal;
  }

  /** moveSAN's search loop, which gives up at the second match. */
  method FindMover(st: GameState, m: SanMove) returns (r: Result<Option<Square>, MoveError>)
    ensures r == Scan(st, LegalTable(st), m, 64)
  {
    ghost var table := LegalTable(st);
    var foundFrom: Option<Square> := None;
    for i := 0 to 64
      invariant Scan(st, table, m, i) == Ok(foundFrom)
    {
      var candidate := IsMover(st, m, i);
      if !candidate {
        continue;
      }
      if foundFrom.Some? {
        ScanErrPersists(st, table, m, i + 1, 64);
        return Err(AmbiguousSan);
      }
      foundFrom := Some(i);
    }
    r := Ok(foundFrom);
  }

  // ---------------------------------------------------------------------------
  // moveSAN as a whole
  // ---------------------------------------------------------------------------

  predicate IsKingsideCastle(cleaned: string) {
    cleaned == "O-O" || cleaned == "0-0"
  }

  predicate IsQueensideCastle(cleaned: string) {
    cleaned == "O-O-O" || cleaned == "0-0-0"
  }

  /** The UCI move moveSAN delegates to, or the error it reports before delegating. Castling
      moves the king from file e to file g or c of the home rank of the side to move. */
  function SanUci(st: GameState, legal: seq<seq<Square>>, san: string): Result<string, MoveError>
    requires |legal| == 64
  {
    var cleaned := Cleaned(san);
    var c := st.activeColor;
    if IsKingsideCastle(cleaned) then Ok(SquareName(HomeSquare(c, 4)) + SquareName(HomeSquare(c, 6)))
    else if IsQueensideCastle(cleaned) then Ok(SquareName(HomeSquare(c, 4)) + SquareName(HomeSquare(c, 2)))
    else
      match SanParse(cleaned)
        case Err(e) => Err(e)
        case Ok(m) => MoverUci(st, legal, m)
  }

  /** The search for the piece a parsed SAN move names, and the UCI string of its move. */
  function MoverUci(st: GameState, legal: seq<seq<Square>>, m: SanMove): Result<string, MoveError>
    requires |legal| == 64
  {
    match Scan(st, legal, m, 64)
      case Err(e) => Err(e)
      case Ok(None) => Err(NoMatchingSan)
      case Ok(Some(from)) => Ok(UciOf(from, m.target, m.promotion))
  }

  /** moveSAN up to the point where it hands a UCI move to moveUCI: the castling checks, the parse,
      the search and the UCI string of the move found. */
  method ResolveSan(st: GameState, san: string) returns (r: Result<string, MoveError>)
    ensures r == SanUci(st, LegalTable(st), san)
  {
    var cleaned := Cleaned(san);
    var c := st.activeColor;
    if cleaned == "O-O" || cleaned == "0-0" {
      return Ok(SquareName(HomeSquare(c, 4)) + SquareName(HomeSquare(c, 6)));
    }
    if cleaned == "O-O-O" || cleaned == "0-0-0" {
      return Ok(SquareName(HomeSquare(c, 4)) + SquareName(HomeSquare(c, 2)));
    }
    assert !IsKingsideCastle(cleaned) && !IsQueensideCastle(cleaned);
    var parsed := ParseSan(cleaned);
    if parsed.Err? {
      return Err(parsed.error);
    }
    r := ResolveMover(st, parsed.value);
  }

  /** The search of moveSAN and the UCI string it builds for the square found. */
  method ResolveMover(st: GameState, m: SanMove) returns (r: Result<string, MoveError>)
    ensures r == MoverUci(st, LegalTable(st), m)
  {
    var found := FindMover(st, m);
    if found.Err? {
      return Err(found.error);
    }
    if found.value.None? {
      return Err(NoMatchingSan);
    }
    var uci := SquareName(found.value.value) + SquareName(m.target);
    if m.promotion.Some? {
      uci := uci + UciPromotion(m.promotion.value);
    }
    assert uci == UciOf(found.value.value, m.target, m.promotion);
    r := Ok(uci);
  }

  /** Outside castling, moveSAN reports no match exactly when no square matches, ambiguity exactly
      when two squares match, and otherwise delegates the move of the only matching square. */
  lemma SanUciResolves(st: GameState, legal: seq<seq<Square>>, san: string)
    requires |legal| == 64
    requires !IsKingsideCastle(Cleaned(san)) && !IsQueensideCastle(Cleaned(san)) && SanParse(Cleaned(san)).Ok?
    ensures var m := SanParse(Cleaned(san)).value;
      (SanUci(st, legal, san) == Err(NoMatchingSan) <==> forall i: Square :: !Matches(st, legal, m, i)) &&
      (SanUci(st, legal, san) == Err(AmbiguousSan) <==>
         exists i: Square, j: Square :: i != j && Matches(st, legal, m, i) && Matches(st, legal, m, j)) &&
      (SanUci(st, legal, san).Ok? ==>
         exists f: Square :: Matches(st, legal, m, f) && (forall j: Square :: j != f ==> !Matches(st, legal, m, j)) &&
                             SanUci(st, legal, san) == Ok(UciOf(f, m.target, m.promotion)))
  {
    var m := SanParse(Cleaned(san)).value;
    assert SanUci(st, legal, san) == MoverUci(st, legal, m);
    MoverUciResolves(st, legal, m);
  }

  /** The search ends in no match exactly when no square matches, in ambiguity exactly when two
      squares match, and otherwise in the move of the only matching square. */
  lemma MoverUciResolves(st: GameState, legal: seq<seq<Square>>, m: SanMove)
    requires |legal| == 64
    ensures MoverUci(st, legal, m) == Err(NoMatchingSan) <==> forall i: Square :: !Matches(st, legal, m, i)
    ensures MoverUci(st, legal, m) == Err(AmbiguousSan) <==>
      exists i: Square, j: Square :: i != j && Matches(st, legal, m, i) && Matches(st, legal, m, j)
    ensures MoverUci(st, legal, m).Ok? ==>
      exists f: Square :: Matches(st, legal, m, f) && (forall j: Square :: j != f ==> !Matches(st, legal, m, j)) &&
                          MoverUci(st, legal, m) == Ok(UciOf(f, m.target, m.promotion))
  {
    ScanSound(st, legal, m, 64);
    var s := Scan(st, legal, m, 64);
    if s.Err? {
      var j, k :| 0 <= j < k < 64 && Matches(st, legal, m, j) && Matches(st, legal, m, k);
      assert MoverUci(st, legal, m) == Err(AmbiguousSan);
    } else if s.value.None? {
      assert MoverUci(st, legal, m) == Err(NoMatchingSan);
    } else {
      var f := s.value.value;
      assert MoverUci(st, legal, m) == Ok(UciOf(f, m.target, m.promotion));
      assert Matches(st, legal, m, f);
    }
  }

  /** With the legal moves of the position, the move moveSAN delegates outside castling is one
      moveUCI accepts: the matching piece to the parsed target, with the parsed promotion. */
  lemma SanUciPlays(st: GameState, san: string)
    requires !IsKingsideCastle(Cleaned(san)) && !IsQueensideCastle(Cleaned(san))
    requires SanUci(st, LegalTable(st), san).Ok?
    ensures var m := SanParse(Cleaned(san)).value;
      exists f: Square :: LegalMove(st, f, m.target) &&
        PlayUci(st, SanUci(st, LegalTable(st), san).value) == Ok(RecordOf(st, f, m.target, ReadBack(m.promotion)))
  {
    var legal := LegalTable(st);
    var m := SanParse(Cleaned(san)).value;
    ScanSound(st, legal, m, 64);
    var f := Scan(st, legal, m, 64).value.value;
    LegalTableAt(st, f);
    assert LegalMove(st, f, m.target);
    PlayUciOf(st, f, m.target, m.promotion);
  }

  // ---------------------------------------------------------------------------
  // Writing SAN: getDisambiguation, appendCheckSuffix and getSAN's callback
  // ---------------------------------------------------------------------------

  /** Another square with a piece of the same kind and color that could also move to the target. */
  predicate Candidate(rec: MoveRecord, legal: seq<seq<Square>>, i: Square)
    requires |legal| == 64
  {
    i != rec.from && rec.stateBefore.board[i] == Some(Piece(rec.piece, rec.color)) && rec.to in legal[i]
  }

  /** The candidates below n, in ascending order. */
  function CandidatesBelow(rec: MoveRecord, legal: seq<seq<Square>>, n: nat): seq<Square>
    requires |legal| == 64 && n <= 64
  {
    if n == 0 then [] else CandidatesBelow(rec, legal, n - 1) + (if Candidate(rec, legal, n - 1) then [n - 1] else [])
  }

  lemma {:induction false} CandidatesBelowMembers(rec: MoveRecord, legal: seq<seq<Square>>, n: nat, i: Square)
    requires |legal| == 64 && n <= 64
    ensures i in CandidatesBelow(rec, legal, n) <==> i < n && Candidate(rec, legal, i)
  {
    if n > 0 {
      CandidatesBelowMembers(rec, legal, n - 1, i);
    }
  }

  /** getDisambiguation: nothing without candidates, else the file letter if no candidate shares
      the file, else the rank digit if none shares the rank, else both. */
  function Disambiguation(rec: MoveRecord, legal: seq<seq<Square>>): string
    requires |legal| == 64
  {
    var cs := CandidatesBelow(rec, legal, 64);
    var name := SquareName(rec.from);
    if cs == [] then ""
    else if !(exists c :: c in cs && FileOf(c) == FileOf(rec.from)) then name[..1]
    else if !(exists c :: c in cs && RankOf(c) == RankOf(rec.from)) then name[1..]
    else name
  }

  /** The hints written by getDisambiguation are those of the moving piece's square, and every
      other candidate disagrees with at least one of them. */
  lemma DisambiguationSeparates(rec: MoveRecord, legal: seq<seq<Square>>)
    requires |legal| == 64
    ensures var h := Disambiguation(rec, legal);
      (forall j :: 0 <= j < |h| ==> IsFileChar(h[j]) || IsRankChar(h[j])) && 'x' !in h &&
      (LastFile(h).Some? ==> LastFile(h).value == FileOf(rec.from)) &&
      (LastRank(h).Some? ==> LastRank(h).value == RankOf(rec.from)) &&
      forall c: Square :: Candidate(rec, legal, c) ==>
        (LastFile(h).Some? && FileOf(c) != LastFile(h).value) || (LastRank(h).Some? && RankOf(c) != LastRank(h).value)
  {
    var h := Disambiguation(rec, legal);
    var name := SquareName(rec.from);
    SquareCoordinates(rec.from);
    assert name[..1] == [name[0]] && name[1..] == [name[1]];
    assert LastFile(name[..1]) == Some(FileOf(rec.from));
    assert LastRank(name[1..]) == Some(RankOf(rec.from));
    assert name[..1] == name[..|name| - 1];
    assert LastFile(name) == Some(FileOf(rec.from));
    assert LastRank(name) == Some(RankOf(rec.from));
    forall c: Square | Candidate(rec, legal, c)
      ensures (LastFile(h).Some? && FileOf(c) != LastFile(h).value) || (LastRank(h).Some? && RankOf(c) != LastRank(h).value)
    {
      CandidatesBelowMembers(rec, legal, 64, c);
      SquareCoordinates(c);
    }
  }

  /** getDisambiguation's loop over the squares, then its two `some` tests. */
  method GetDisambiguation(rec: MoveRecord) returns (s: string)
    ensures s == Disambiguation(rec, LegalTable(rec.stateBefore))
  {
    var candidates := CollectCandidates(rec);
    if candidates == [] {
      return "";
    }
    var fromFile := rec.from % 8;
    var fromRank := rec.from / 8;
    var sameFile := exists c :: c in candidates && c % 8 == fromFile;
    var sameRank := exists c :: c in candidates && c / 8 == fromRank;
    var name := SquareName(rec.from);
    if !sameFile {
      return [(97 + fromFile) as char];
    }
    if !sameRank {
      assert name[1..] == NatString(fromRank + 1);
      return NatString(fromRank + 1);
    }
    s := [(97 + fromFile) as char] + NatString(fromRank + 1);
  }

  /** getDisambiguation's loop: the other squares whose piece could also reach the target. */
  method CollectCandidates(rec: MoveRecord) returns (candidates: seq<Square>)
    ensures candidates == CandidatesBelow(rec, LegalTable(rec.stateBefore), 64)
  {
    ghost var table := LegalTable(rec.stateBefore);
    candidates := [];
    for i := 0 to 64
      invariant candidates == CandidatesBelow(rec, table, i)
    {
      if i == rec.from {
        continue;
      }
      var p := rec.stateBefore.board[i];
      if p.Some? && p.value.kind == rec.piece && p.value.color == rec.color {
        var moves := GetLegalMoves(rec.stateBefore, i);
        LegalTableAt(rec.stateBefore, i);
        if rec.to in moves {
          candidates := candidates + [i];
        }
      }
    }
  }

  /** appendCheckSuffix: '#' when the move mates the opponent, else '+' when it checks. */
  function CheckSuffix(rec: MoveRecord, san: string): string
    requires Applicable(rec.stateBefore, rec.from, rec.to)
  {
    var after := NextState(rec.stateBefore, rec.from, rec.to, rec.promotion);
    var opponent := Opponent(rec.color);
    if Checkmated(after, opponent) then san + "#"
    else if InCheck(after, opponent) then san + "+"
    else san
  }

  /** The suffix written is '#' exactly when the opponent is mated, '+' exactly when it is in check
      but not mated, and nothing otherwise; the text before it is kept. */
  lemma CheckSuffixMeaning(rec: MoveRecord, san: string)
    requires Applicable(rec.stateBefore, rec.from, rec.to)
    ensures var s, after := CheckSuffix(rec, san), NextState(rec.stateBefore, rec.from, rec.to, rec.promotion);
      var opponent := Opponent(rec.color);
      s[..|san|] == san &&
      (s == san + "#" <==> Checkmated(after, opponent)) &&
      (s == san + "+" <==> InCheck(after, opponent) && !Checkmated(after, opponent)) &&
      (s == san <==> !InCheck(after, opponent)) &&
      s in {san, san + "+", san + "#"}
  {
  }

  method AppendCheckSuffix(rec: MoveRecord, san: string) returns (s: string)
    requires Applicable(rec.stateBefore, rec.from, rec.to)
    ensures s == CheckSuffix(rec, san)
  {
    var stateAfter := ApplyMoveToState(rec.stateBefore, rec.from, rec.to, rec.promotion);
    var opponentColor := if rec.color == White then Black else White;
    var mate := IsCheckmate(stateAfter, opponentColor);
    if mate {
      return san + "#";
    }
    var check := IsInCheck(stateAfter, opponentColor);
    if check {
      return san + "+";
    }
    s := san;
  }

  /** The SAN text of a recorded move before the check suffix. */
  function MoveText(rec: MoveRecord, legal: seq<seq<Square>>): string
    requires |legal| == 64
  {
    if rec.castleKingside then "O-O"
    else if rec.castleQueenside then "O-O-O"
    else if rec.piece == Pawn then PawnText(rec)
    else PieceText(rec, legal)
  }

  /** A pawn move: the from file and 'x' for a capture, the target, '=' and the promotion letter. */
  function PawnText(rec: MoveRecord): string {
    (if rec.captured.Some? then SquareName(rec.from)[..1] + "x" else "") + SquareName(rec.to) +
    (if rec.promotion.Some? then "=" + PromotionSan(rec.promotion.value) else "")
  }

  /** A piece move: the piece letter, the disambiguation, 'x' for a capture, the target. */
  function PieceText(rec: MoveRecord, legal: seq<seq<Square>>): string
    requires |legal| == 64
  {
    SanPrefix(rec.piece) + Disambiguation(rec, legal) + (if rec.captured.Some? then "x" else "") + SquareName(rec.to)
  }

  /** getSAN's entry for one record. */
  function SanOf(rec: MoveRecord, legal: seq<seq<Square>>): string
    requires |legal| == 64 && Applicable(rec.stateBefore, rec.from, rec.to)
  {
    CheckSuffix(rec, MoveText(rec, legal))
  }

  /** getSAN's callback for one record. */
  method WriteSan(rec: MoveRecord) returns (san: string)
    requires Applicable(rec.stateBefore, rec.from, rec.to)
    ensures san == SanOf(rec, LegalTable(rec.stateBefore))
  {
    if rec.castleKingside {
      san := AppendCheckSuffix(rec, "O-O");
      return;
    }
    if rec.castleQueenside {
      san := AppendCheckSuffix(rec, "O-O-O");
      return;
    }
    if rec.piece == Pawn {
      san := WritePawnText(rec);
    } else {
      san := WritePieceText(rec);
    }
    san := AppendCheckSuffix(rec, san);
  }

  method WritePawnText(rec: MoveRecord) returns (san: string)
    ensures san == PawnText(rec)
  {
    san := "";
    if rec.captured.Some? {
      san := san + [(97 + rec.from % 8) as char];
      san := san + "x";
    }
    san := san + SquareName(rec.to);
    if rec.promotion.Some? {
      san := san + "=" + PromotionSan(rec.promotion.value);
    }
  }

  method WritePieceText(rec: MoveRecord) returns (san: string)
    ensures san == PieceText(rec, LegalTable(rec.stateBefore))
  {
    san := SanPrefix(rec.piece);
    var disambiguation := GetDisambiguation(rec);
    san := san + disambiguation;
    if rec.captured.Some? {
      san := san + "x";
    }
    san := san + SquareName(rec.to);
  }

  // ---------------------------------------------------------------------------
  // Round trip: the SAN getSAN writes is read back by moveSAN as the same move
  // ---------------------------------------------------------------------------

  /** The square a piece move started from is the only square matching its SAN, with any table
      that holds the mover's legal moves. */
  lemma OnlyMoverMatches(rec: MoveRecord, legal: seq<seq<Square>>)
    requires Recorded(rec) && rec.piece != Pawn
    requires |legal| == 64 && legal[rec.from] == LegalTargets(rec.stateBefore, rec.from)
    ensures var h := Disambiguation(rec, legal);
      var m := SanMove(rec.piece, LastFile(h), LastRank(h), rec.to, None);
      Matches(rec.stateBefore, legal, m, rec.from) &&
      forall j: Square :: j != rec.from ==> !Matches(rec.stateBefore, legal, m, j)
  {
    var st := rec.stateBefore;
    var h := Disambiguation(rec, legal);
    var m := SanMove(rec.piece, LastFile(h), LastRank(h), rec.to, None);
    DisambiguationSeparates(rec, legal);
    assert st.board[rec.from] == Some(Piece(rec.piece, rec.color)) && rec.color == st.activeColor;
    forall j: Square | j != rec.from
      ensures !Matches(st, legal, m, j)
    {
      if Matches(st, legal, m, j) {
        assert Candidate(rec, legal, j);
      }
    }
  }

  /** moveSAN outside castling delegates the move of the only matching square. */
  lemma SanUciOfMatch(st: GameState, legal: seq<seq<Square>>, san: string, m: SanMove, f: Square)
    requires |legal| == 64 && !IsKingsideCastle(Cleaned(san)) && !IsQueensideCastle(Cleaned(san))
    requires SanParse(Cleaned(san)) == Ok(m)
    requires Matches(st, legal, m, f) && forall j: Square :: j != f ==> !Matches(st, legal, m, j)
    ensures SanUci(st, legal, san) == Ok(UciOf(f, m.target, m.promotion))
  {
    ScanUnique(st, legal, m, 64, f);
  }

  /** A piece move text, followed by a check suffix, is cleaned back to itself and is not read as
      a castle. */
  lemma PieceTextCleaned(kind: PieceKind, h: string, cap: string, sq: string, suffix: string)
    requires kind != Pawn && IsSquareName(sq) && suffix in {"", "+", "#"}
    ensures var text := SanPrefix(kind) + h + cap + sq;
      Cleaned(text + suffix) == text && !IsKingsideCastle(text) && !IsQueensideCastle(text)
  {
    var text := SanPrefix(kind) + h + cap + sq;
    PieceTextEnds(kind, h, cap, sq);
    NotCastleText(text);
    CleanedSuffix(text, suffix);
  }

  /** A text that starts with a piece letter is neither castling spelling. */
  lemma NotCastleText(text: string)
    requires text != [] && text[0] in "KQRBN"
    ensures !IsKingsideCastle(text) && !IsQueensideCastle(text)
  {
  }

  /** The text of a piece move starts with its letter and ends with the target's rank digit. */
  lemma PieceTextEnds(kind: PieceKind, h: string, cap: string, sq: string)
    requires kind != Pawn && IsSquareName(sq)
    ensures var text := SanPrefix(kind) + h + cap + sq;
      text != [] && text[0] in "KQRBN" && IsRankChar(text[|text| - 1])
  {
    var text := SanPrefix(kind) + h + cap + sq;
    assert text == SanPrefix(kind) + (h + cap + sq);
    SanPrefixLetter(kind);
  }

  /** The prefix of a piece move is one of the letters K, Q, R, B, N. */
  lemma SanPrefixLetter(kind: PieceKind)
    requires kind != Pawn
    ensures SanPrefix(kind)[0] in "KQRBN"
  {
  }

  /** A recorded piece move that is not a castle, written in SAN and followed by any check suffix,
      is read back as its UCI move. */
  lemma PieceSanRoundTrip(rec: MoveRecord, legal: seq<seq<Square>>, suffix: string)
    requires Recorded(rec) && rec.piece != Pawn && !rec.castleKingside && !rec.castleQueenside
    requires |legal| == 64 && legal[rec.from] == LegalTargets(rec.stateBefore, rec.from)
    requires suffix in {"", "+", "#"}
    ensures SanUci(rec.stateBefore, legal, MoveText(rec, legal) + suffix) == Ok(UciOf(rec.from, rec.to, None))
  {
    var h := Disambiguation(rec, legal);
    var m := SanMove(rec.piece, LastFile(h), LastRank(h), rec.to, None);
    var cap := if rec.captured.Some? then "x" else "";
    DisambiguationSeparates(rec, legal);
    PieceTextCleaned(rec.piece, h, cap, SquareName(rec.to), suffix);
    ParsePieceText(rec.piece, h, cap, SquareName(rec.to));
    SquareNameRoundTrip(rec.to);
    assert PieceText(rec, legal) == SanPrefix(rec.piece) + h + cap + SquareName(rec.to);
    OnlyMoverMatches(rec, legal);
    SanUciOfMatch(rec.stateBefore, legal, MoveText(rec, legal) + suffix, m, rec.from);
  }

  /** A recorded castle, written as O-O or O-O-O and followed by any check suffix, is read back as
      the king's UCI move. */
  function CastleText(rec: MoveRecord): string {
    if rec.castleKingside then "O-O" else "O-O-O"
  }

  lemma CastleSanRoundTrip(rec: MoveRecord, legal: seq<seq<Square>>, suffix: string)
    requires Recorded(rec) && (rec.castleKingside || rec.castleQueenside)
    requires |legal| == 64 && suffix in {"", "+", "#"}
    ensures SanUci(rec.stateBefore, legal, CastleText(rec) + suffix) == Ok(UciOf(rec.from, rec.to, None))
  {
    RecordFlags(rec);
    if !rec.castleKingside {
      assert rec.to - rec.from != 2;
    }
    CastleTextUci(rec.stateBefore, legal, CastleText(rec), suffix, rec.from, rec.to);
  }

  /** O-O or O-O-O, with any check suffix, is read as the king's move from file e to file g or c
      of the home rank. */
  lemma CastleTextUci(st: GameState, legal: seq<seq<Square>>, text: string, suffix: string, from: Square, to: Square)
    requires |legal| == 64 && suffix in {"", "+", "#"} && (text == "O-O" || text == "O-O-O")
    requires from == HomeSquare(st.activeColor, 4)
    requires to == HomeSquare(st.activeColor, if text == "O-O" then 6 else 2)
    ensures SanUci(st, legal, text + suffix) == Ok(UciOf(from, to, None))
  {
    CleanedSuffix(text, suffix);
    var uci := SquareName(from) + SquareName(to);
    assert UciOf(from, to, None) == uci + "" == uci;
    if text == "O-O" {
      assert IsKingsideCastle(Cleaned(text + suffix));
      assert SanUci(st, legal, text + suffix) == Ok(uci);
    } else {
      assert !IsKingsideCastle(Cleaned(text + suffix)) && IsQueensideCastle(Cleaned(text + suffix));
      assert SanUci(st, legal, text + suffix) == Ok(uci);
    }
  }

  /** Replaying getSAN's entry for a recorded piece move (moveSAN on the position before it)
      appends exactly the same record again. */
  lemma SanReplay(rec: MoveRecord, legal: seq<seq<Square>>)
    requires Recorded(rec) && rec.piece != Pawn && rec.promotion == None
    requires |legal| == 64 && legal[rec.from] == LegalTargets(rec.stateBefore, rec.from)
    ensures Applicable(rec.stateBefore, rec.from, rec.to)
    ensures SanUci(rec.stateBefore, legal, SanOf(rec, legal)).Ok?
    ensures PlayUci(rec.stateBefore, SanUci(rec.stateBefore, legal, SanOf(rec, legal)).value) == Ok(rec)
  {
    RecordedApplicable(rec);
    var text := MoveText(rec, legal);
    CheckSuffixMeaning(rec, text);
    var suffix := SanOf(rec, legal)[|text|..];
    assert SanOf(rec, legal) == text + suffix;
    if rec.castleKingside || rec.castleQueenside {
      assert text == CastleText(rec);
      CastleSanRoundTrip(rec, legal, suffix);
    } else {
      PieceSanRoundTrip(rec, legal, suffix);
    }
    PlayUciOf(rec.stateBefore, rec.from, rec.to, None);
  }
}
