/**
 * Character-level codecs of the engine (src/chess/engine.ts helpers): square names, FEN piece
 * letters, SAN piece prefixes, promotion letters, and the decimal numbers of FEN counters.
 */
module Notation {
  import opened Wrappers
  import opened Types
  import opened Squares

  predicate IsFileChar(c: char) { 'a' <= c <= 'h' }
  predicate IsRankChar(c: char) { '1' <= c <= '8' }
  predicate IsDigit(c: char) { '0' <= c <= '9' }

  /** A square name: a file letter a-h followed by a rank digit 1-8. */
  predicate IsSquareName(s: string) {
    |s| == 2 && IsFileChar(s[0]) && IsRankChar(s[1])
  }

  /** squareToAlgebraic: file letter from 'a', rank digit from '1'. */
  function SquareName(i: Square): (s: string)
    ensures IsSquareName(s)
  {
    SquareCoordinates(i);
    [(('a' as int) + FileOf(i)) as char, (('1' as int) + RankOf(i)) as char]
  }

  /** algebraicToSquare, on the strings its callers have already matched against [a-h][1-8]. */
  function AlgebraicToSquare(s: string): (i: Square)
    requires |s| >= 2 && IsFileChar(s[0]) && IsRankChar(s[1])
    ensures FileOf(i) == s[0] as int - 'a' as int
    ensures RankOf(i) == s[1] as int - '1' as int
  {
    var f := s[0] as int - 'a' as int;
    var r := s[1] as int - '1' as int;
    IndexCoordinates(f, r);
    ToIndex(f, r)
  }

  lemma SquareNameRoundTrip(i: Square)
    ensures AlgebraicToSquare(SquareName(i)) == i
  {
    SquareCoordinates(i);
    IndexCoordinates(FileOf(i), RankOf(i));
  }

  lemma SquareNameInverse(s: string)
    requires IsSquareName(s)
    ensures SquareName(AlgebraicToSquare(s)) == s
  {
    var i := AlgebraicToSquare(s);
    SquareCoordinates(i);
  }

  /** Square names are distinct. */
  lemma SquareNameInjective(i: Square, j: Square)
    ensures SquareName(i) == SquareName(j) ==> i == j
  {
    SquareNameRoundTrip(i);
    SquareNameRoundTrip(j);
  }

  // ---------------------------------------------------------------------------
  // FEN piece letters
  // ---------------------------------------------------------------------------

  function LowerLetter(k: PieceKind): char {
    match k
      case King => 'k'
      case Queen => 'q'
      case Rook => 'r'
      case Bishop => 'b'
      case Knight => 'n'
      case Pawn => 'p'
  }

  function ToUpper(c: char): char {
    if 'a' <= c <= 'z' then (c as int - 32) as char else c
  }

  function ToLower(c: char): char {
    if 'A' <= c <= 'Z' then (c as int + 32) as char else c
  }

  /** pieceToFenChar: the lower-case letter of the kind, upper-cased for White. */
  function PieceChar(p: Piece): char {
    if p.color == White then ToUpper(LowerLetter(p.kind)) else LowerLetter(p.kind)
  }

  /** The kind named by a lower-case FEN letter. */
  function KindOfLetter(c: char): Option<PieceKind> {
    match c
      case 'k' => Some(King)
      case 'q' => Some(Queen)
      case 'r' => Some(Rook)
      case 'b' => Some(Bishop)
      case 'n' => Some(Knight)
      case 'p' => Some(Pawn)
      case _ => None
  }

  /** fenCharToPiece: None stands for the thrown error. A letter equal to its own upper case is White. */
  function FenCharToPiece(c: char): (r: Option<Piece>)
    ensures r.Some? <==> ToLower(c) in {'k', 'q', 'r', 'b', 'n', 'p'}
  {
    match KindOfLetter(ToLower(c))
      case None => None
      case Some(k) => Some(Piece(k, if c == ToUpper(c) then White else Black))
  }

  lemma PieceCharRoundTrip(p: Piece)
    ensures FenCharToPiece(PieceChar(p)) == Some(p)
  {
  }

  /** Every accepted letter is the letter of the piece it decodes to, so the letter set
      KQRBNPkqrbnp and the twelve pieces correspond one to one. */
  lemma FenCharInverse(c: char)
    requires FenCharToPiece(c).Some?
    ensures PieceChar(FenCharToPiece(c).value) == c
    ensures c in "KQRBNPkqrbnp"
  {
  }

  lemma PieceCharInjective(p: Piece, q: Piece)
    ensures PieceChar(p) == PieceChar(q) ==> p == q
  {
    PieceCharRoundTrip(p);
    PieceCharRoundTrip(q);
  }

  // ---------------------------------------------------------------------------
  // SAN piece prefixes and promotion letters
  // ---------------------------------------------------------------------------

  /** pieceTypeSanPrefix: upper-case letter, none for a pawn. */
  function SanPrefix(k: PieceKind): (s: string)
    ensures |s| <= 1
    ensures s == [] <==> k == Pawn
  {
    if k == Pawn then "" else [ToUpper(LowerLetter(k))]
  }

  /** sanPrefixToPieceType, on the letters KQRBN the SAN parser has already matched. */
  function SanPrefixToKind(c: char): Option<PieceKind> {
    match c
      case 'K' => Some(King)
      case 'Q' => Some(Queen)
      case 'R' => Some(Rook)
      case 'B' => Some(Bishop)
      case 'N' => Some(Knight)
      case _ => None
  }

  lemma SanPrefixRoundTrip(k: PieceKind)
    ensures k != Pawn ==> SanPrefixToKind(SanPrefix(k)[0]) == Some(k)
    ensures forall c :: SanPrefixToKind(c) == Some(k) ==> SanPrefix(k) == [c]
  {
  }

  /** promotionCharToType: q, r, b or n in either case. */
  function PromotionCharToKind(c: char): (r: Option<PieceKind>)
    ensures r.Some? ==> r.value in {Queen, Rook, Bishop, Knight}
  {
    match ToLower(c)
      case 'q' => Some(Queen)
      case 'r' => Some(Rook)
      case 'b' => Some(Bishop)
      case 'n' => Some(Knight)
      case _ => None
  }

  /** promotionTypeToSan: upper-case letter of a promotion piece, none for king or pawn. */
  function PromotionSan(k: PieceKind): (s: string)
    ensures |s| <= 1
    ensures s == [] <==> k in {King, Pawn}
  {
    if k in {King, Pawn} then "" else [ToUpper(LowerLetter(k))]
  }

  /** The promotion letter written in a move (upper for SAN, lower for UCI) decodes back. */
  lemma PromotionLetterRoundTrip(k: PieceKind)
    requires k in {Queen, Rook, Bishop, Knight}
    ensures PromotionCharToKind(PromotionSan(k)[0]) == Some(k)
    ensures PromotionCharToKind(LowerLetter(k)) == Some(k)
  {
  }

  // ---------------------------------------------------------------------------
  // Decimal numbers (String(n) and parseInt(s, 10))
  // ---------------------------------------------------------------------------

  function DigitChar(d: nat): char
    requires d < 10
  {
    (('0' as int) + d) as char
  }

  function DigitValue(c: char): nat
    requires IsDigit(c)
  {
    c as int - '0' as int
  }

  /** String(n) for a natural number: its decimal digits, no leading zero. */
  function NatString(n: nat): (s: string)
    ensures |s| >= 1 && forall j :: 0 <= j < |s| ==> IsDigit(s[j])
    ensures |s| > 1 ==> s[0] != '0'
    decreases n
  {
    if n < 10 then [DigitChar(n)] else NatString(n / 10) + [DigitChar(n % 10)]
  }

  /** The length of the run of decimal digits at the front of s. */
  function DigitRun(s: string): (k: nat)
    ensures k <= |s|
    ensures forall j :: 0 <= j < k ==> IsDigit(s[j])
    ensures k < |s| ==> !IsDigit(s[k])
  {
    if s == [] || !IsDigit(s[0]) then 0 else 1 + DigitRun(s[1..])
  }

  /** The value of a string of decimal digits, most significant first. */
  function DigitsValue(s: string): nat
    requires forall j :: 0 <= j < |s| ==> IsDigit(s[j])
    decreases |s|
  {
    if s == [] then 0 else 10 * DigitsValue(s[..|s| - 1]) + DigitValue(s[|s| - 1])
  }

  /** parseInt(s, 10) on a token without leading blanks: an optional sign and the longest run of
      digits after it; None stands for NaN. */
  function ParseInt(s: string): (r: Option<int>)
    ensures r.Some? ==> (r.value < 0 ==> |s| > 0 && s[0] == '-')
  {
    var signed := |s| > 0 && (s[0] == '-' || s[0] == '+');
    var body := if signed then s[1..] else s;
    var k := DigitRun(body);
    var v: int := if k == 0 then 0 else DigitsValue(body[..k]);
    if k == 0 then None
    else if |s| > 0 && s[0] == '-' then Some(-v)
    else Some(v)
  }

  lemma {:induction false} DigitsValueOfNatString(n: nat)
    ensures DigitsValue(NatString(n)) == n
    decreases n
  {
    if n >= 10 {
      DigitsValueOfNatString(n / 10);
      var s := NatString(n);
      assert s[..|s| - 1] == NatString(n / 10);
    }
  }

  /** Decimal numbers read back: parseInt(String(n)) == n. */
  lemma ParseNatString(n: nat)
    ensures ParseInt(NatString(n)) == Some(n)
  {
    var s := NatString(n);
    assert DigitRun(s) == |s| by { DigitRunAll(s); }
    assert s[..|s|] == s;
    DigitsValueOfNatString(n);
  }

  lemma {:induction false} DigitRunAll(s: string)
    requires forall j :: 0 <= j < |s| ==> IsDigit(s[j])
    ensures DigitRun(s) == |s|
    decreases |s|
  {
    if s != [] {
      DigitRunAll(s[1..]);
    }
  }

  /** A token without any digit after its optional sign is NaN. */
  lemma ParseIntRejects(s: string)
    requires s == [] || (!IsDigit(s[0]) && s[0] != '-' && s[0] != '+')
    ensures ParseInt(s) == None
  {
  }
}
