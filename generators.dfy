/**
 * Pseudo-legal move generation (src/chess/rules.ts, getPawnMoves .. getPseudoLegalMoves):
 * the squares a piece may move to before the own-king safety filter.
 * Each generator is a specification function that returns its targets in the order the
 * source pushes them, plus a method that performs the source's loops and is proved to
 * return exactly that sequence.
 */
module Generators {
  import opened Wrappers
  import opened Types
  import opened Squares
  import opened Attacks

  /** Square i is empty or holds a piece of the other color than `color`. */
  predicate Enterable(b: Board, i: Square, color: Color) {
    b[i].None? || b[i].value.color != color
  }

  /** The square at file f, rank r, for coordinates known to be on the board. */
  function At(f: int, r: int): Square
    requires InBounds(f, r)
  {
    ToIndex(f, r)
  }

  // ---------------------------------------------------------------------------
  // Knight and king steps
  // ---------------------------------------------------------------------------

  /** The target (if any) of one fixed offset d from `from`. */
  function StepTarget(b: Board, from: Square, color: Color, d: (int, int)): seq<Square> {
    var f, r := FileOf(from) + d.0, RankOf(from) + d.1;
    if InBounds(f, r) && Enterable(b, At(f, r), color) then [At(f, r)] else []
  }

  /** The targets of a list of offsets, in list order. */
  function StepTargets(b: Board, from: Square, color: Color, offsets: seq<(int, int)>): seq<Square>
    decreases |offsets|
  {
    if offsets == [] then []
    else StepTargets(b, from, color, offsets[..|offsets| - 1]) + StepTarget(b, from, color, offsets[|offsets| - 1])
  }

  /** The shared loop of getKnightMoves and the first half of getKingMoves. */
  method StepMoves(b: Board, from: Square, color: Color, offsets: seq<(int, int)>) returns (result: seq<Square>)
    ensures result == StepTargets(b, from, color, offsets)
  {
    var file, rank := FileOf(from), RankOf(from);
    result := [];
    for j := 0 to |offsets|
      invariant result == StepTargets(b, from, color, offsets[..j])
    {
      assert offsets[..j + 1][..j] == offsets[..j];
      assert StepTargets(b, from, color, offsets[..j + 1]) == StepTargets(b, from, color, offsets[..j]) + StepTarget(b, from, color, offsets[j]);
      var (df, dr) := offsets[j];
      var f, r := file + df, rank + dr;
      if InBounds(f, r) {
        var idx := ToIndex(f, r);
        var p := b[idx];
        if p.None? || p.value.color != color {
          result := result + [idx];
        }
      }
    }
    assert offsets[..|offsets|] == offsets;
  }

  /** getKnightMoves. */
  method KnightMoves(b: Board, from: Square, color: Color) returns (result: seq<Square>)
    ensures result == StepTargets(b, from, color, KnightOffsets)
  {
    result := StepMoves(b, from, color, KnightOffsets);
  }

  // ---------------------------------------------------------------------------
  // Sliding pieces
  // ---------------------------------------------------------------------------

  /** The squares a slider reaches walking from (f, r) in direction (df, dr): empty squares,
      then the first occupied square if it holds an enemy, and nothing beyond it. */
  function Ray(b: Board, color: Color, f: int, r: int, df: int, dr: int): seq<Square>
    requires IsUnit(df, dr)
    decreases Reach(f, r, df, dr)
  {
    if !InBounds(f, r) then []
    else match b[At(f, r)]
      case None => [At(f, r)] + Ray(b, color, f + df, r + dr, df, dr)
      case Some(p) => if p.color != color then [At(f, r)] else []
  }

  function DirectionRay(b: Board, from: Square, color: Color, d: (int, int)): seq<Square>
    requires IsUnit(d.0, d.1)
  {
    Ray(b, color, FileOf(from) + d.0, RankOf(from) + d.1, d.0, d.1)
  }

  /** The targets of slideMoves: one ray per direction, in direction order. */
  function SlideTargets(b: Board, from: Square, color: Color, dirs: seq<(int, int)>): seq<Square>
    requires AllUnit(dirs)
    decreases |dirs|
  {
    if dirs == [] then []
    else SlideTargets(b, from, color, dirs[..|dirs| - 1]) + DirectionRay(b, from, color, dirs[|dirs| - 1])
  }

  /** One step of Ray: an empty square continues the walk, an occupied one ends it. */
  lemma RayStep(b: Board, color: Color, f: int, r: int, df: int, dr: int)
    requires IsUnit(df, dr) && InBounds(f, r)
    ensures b[ToIndex(f, r)].None? ==> Ray(b, color, f, r, df, dr) == [ToIndex(f, r)] + Ray(b, color, f + df, r + dr, df, dr)
    ensures b[ToIndex(f, r)].Some? ==> Ray(b, color, f, r, df, dr) == if b[ToIndex(f, r)].value.color != color then [ToIndex(f, r)] else []
  {
  }

  /** The inner while loop of slideMoves. */
  method RayMoves(b: Board, color: Color, f0: int, r0: int, df: int, dr: int) returns (result: seq<Square>)
    requires IsUnit(df, dr)
    ensures result == Ray(b, color, f0, r0, df, dr)
  {
    result := [];
    var f, r := f0, r0;
    while InBounds(f, r)
      invariant Ray(b, color, f0, r0, df, dr) == result + Ray(b, color, f, r, df, dr)
      decreases Reach(f, r, df, dr)
    {
      var idx := ToIndex(f, r);
      var p := b[idx];
      RayStep(b, color, f, r, df, dr);
      if p.None? {
        assert result + Ray(b, color, f, r, df, dr) == (result + [idx]) + Ray(b, color, f + df, r + dr, df, dr);
        result := result + [idx];
      } else {
        if p.value.color != color {
          result := result + [idx];
        }
        break;
      }
      f, r := f + df, r + dr;
    }
  }

  /** slideMoves. */
  method SlideMoves(b: Board, from: Square, color: Color, dirs: seq<(int, int)>) returns (result: seq<Square>)
    requires AllUnit(dirs)
    ensures result == SlideTargets(b, from, color, dirs)
  {
    var file, rank := FileOf(from), RankOf(from);
    result := [];
    for j := 0 to |dirs|
      invariant result == SlideTargets(b, from, color, dirs[..j])
    {
      assert dirs[..j + 1][..j] == dirs[..j];
      assert SlideTargets(b, from, color, dirs[..j + 1]) == SlideTargets(b, from, color, dirs[..j]) + DirectionRay(b, from, color, dirs[j]);
      var (df, dr) := dirs[j];
      assert IsUnit(df, dr);
      var ray := RayMoves(b, color, file + df, rank + dr, df, dr);
      result := result + ray;
    }
    assert dirs[..|dirs|] == dirs;
  }

  function BishopTargets(b: Board, from: Square, color: Color): seq<Square> {
    SlidingDirectionsAreUnit();
    SlideTargets(b, from, color, Diagonals)
  }

  function RookTargets(b: Board, from: Square, color: Color): seq<Square> {
    SlidingDirectionsAreUnit();
    SlideTargets(b, from, color, Straights)
  }

  /** getQueenMoves: the bishop targets followed by the rook targets. */
  function QueenTargets(b: Board, from: Square, color: Color): seq<Square> {
    BishopTargets(b, from, color) + RookTargets(b, from, color)
  }

  method BishopMoves(b: Board, from: Square, color: Color) returns (result: seq<Square>)
    ensures result == BishopTargets(b, from, color)
  {
    SlidingDirectionsAreUnit();
    result := SlideMoves(b, from, color, Diagonals);
  }

  method RookMoves(b: Board, from: Square, color: Color) returns (result: seq<Square>)
    ensures result == RookTargets(b, from, color)
  {
    SlidingDirectionsAreUnit();
    result := SlideMoves(b, from, color, Straights);
  }

  method QueenMoves(b: Board, from: Square, color: Color) returns (result: seq<Square>)
    ensures result == QueenTargets(b, from, color)
  {
    var diagonal := BishopMoves(b, from, color);
    var straight := RookMoves(b, from, color);
    result := diagonal + straight;
  }

  // ---------------------------------------------------------------------------
  // Pawns
  // ---------------------------------------------------------------------------

  /** The non-capturing pawn targets: one square ahead if it is empty and, from the start rank,
      two squares ahead if that square is empty too. */
  function PawnPushes(st: GameState, from: Square, color: Color): seq<Square> {
    var one := from + 8 * Dir(color);
    var two := from + 16 * Dir(color);
    if 0 <= one < 64 && st.board[one].None? then
      [one] + (if RankOf(from) == PawnStartRank(color) && 0 <= two < 64 && st.board[two].None? then [two] else [])
    else []
  }

  /** The diagonal target on file offset df: taken when it holds an enemy piece or is the
      en-passant square. */
  function PawnCapture(st: GameState, from: Square, color: Color, df: int): seq<Square> {
    var targetFile := FileOf(from) + df;
    var t := from + 8 * Dir(color) + df;
    if targetFile < 0 || targetFile > 7 || t < 0 || t >= 64 then []
    else if st.board[t].Some? && st.board[t].value.color != color then [t]
    else if st.enPassant == Some(t) then [t]
    else []
  }

  function PawnCaptures(st: GameState, from: Square, color: Color, dfs: seq<int>): seq<Square>
    decreases |dfs|
  {
    if dfs == [] then []
    else PawnCaptures(st, from, color, dfs[..|dfs| - 1]) + PawnCapture(st, from, color, dfs[|dfs| - 1])
  }

  /** getPawnMoves: pushes first, then the captures towards file-1 and file+1. */
  function PawnTargets(st: GameState, from: Square, color: Color): seq<Square> {
    PawnPushes(st, from, color) + PawnCaptures(st, from, color, PawnCaptureFiles)
  }

  /** The forward half of getPawnMoves. */
  method PawnPushMoves(st: GameState, from: Square, color: Color) returns (result: seq<Square>)
    ensures result == PawnPushes(st, from, color)
  {
    var board := st.board;
    var dir := Dir(color);
    var startRank := PawnStartRank(color);
    var rank := RankOf(from);
    result := [];
    var oneForward := from + 8 * dir;
    if 0 <= oneForward < 64 && !board[oneForward].Some? {
      result := result + [oneForward];
      if rank == startRank {
        var twoForward := from + 16 * dir;
        if 0 <= twoForward < 64 && !board[twoForward].Some? {
          result := result + [twoForward];
        }
      }
    }
  }

  method PawnMoves(st: GameState, from: Square, color: Color) returns (result: seq<Square>)
    ensures result == PawnTargets(st, from, color)
  {
    result := PawnPushMoves(st, from, color);
    ghost var pushes := result;
    for j := 0 to |PawnCaptureFiles|
      invariant result == pushes + PawnCaptures(st, from, color, PawnCaptureFiles[..j])
    {
      PawnCapturesStep(st, from, color, PawnCaptureFiles, j);
      var capture := PawnCaptureMove(st, from, color, PawnCaptureFiles[j]);
      result := result + capture;
      assert result == pushes + (PawnCaptures(st, from, color, PawnCaptureFiles[..j]) + capture);
    }
    assert PawnCaptureFiles[..|PawnCaptureFiles|] == PawnCaptureFiles;
  }

  /** One more file offset adds its capture at the end. */
  lemma PawnCapturesStep(st: GameState, from: Square, color: Color, dfs: seq<int>, j: int)
    requires 0 <= j < |dfs|
    ensures PawnCaptures(st, from, color, dfs[..j + 1]) ==
      PawnCaptures(st, from, color, dfs[..j]) + PawnCapture(st, from, color, dfs[j])
  {
    assert dfs[..j + 1][..j] == dfs[..j];
  }

  /** One pass of the capture loop of getPawnMoves. */
  method PawnCaptureMove(st: GameState, from: Square, color: Color, df: int) returns (result: seq<Square>)
    ensures result == PawnCapture(st, from, color, df)
  {
    result := [];
    var targetFile := FileOf(from) + df;
    var targetIndex := from + 8 * Dir(color) + df;
    if 0 <= targetFile <= 7 && 0 <= targetIndex < 64 {
      var target := st.board[targetIndex];
      if target.Some? && target.value.color != color {
        result := [targetIndex];
      } else if st.enPassant.Some? && targetIndex == st.enPassant.value {
        result := [targetIndex];
      }
    }
  }

  // ---------------------------------------------------------------------------
  // King and castling
  // ---------------------------------------------------------------------------

  function KingsideRight(c: CastlingRights, color: Color): bool {
    if color == White then c.K else c.k
  }

  function QueensideRight(c: CastlingRights, color: Color): bool {
    if color == White then c.Q else c.q
  }

  /** Kingside castling for `color`: the right is set, the f and g squares of the home rank are
      empty and neither is attacked by the opponent. */
  predicate KingsideClear(st: GameState, color: Color) {
    var b, opponent := st.board, Opponent(color);
    KingsideRight(st.castling, color)
    && b[HomeSquare(color, 5)].None? && b[HomeSquare(color, 6)].None?
    && !Attacked(b, HomeSquare(color, 5), opponent) && !Attacked(b, HomeSquare(color, 6), opponent)
  }

  /** Queenside castling for `color`: the right is set, the d, c and b squares of the home rank
      are empty and neither d nor c is attacked (b may be). */
  predicate QueensideClear(st: GameState, color: Color) {
    var b, opponent := st.board, Opponent(color);
    QueensideRight(st.castling, color)
    && b[HomeSquare(color, 3)].None? && b[HomeSquare(color, 2)].None? && b[HomeSquare(color, 1)].None?
    && !Attacked(b, HomeSquare(color, 3), opponent) && !Attacked(b, HomeSquare(color, 2), opponent)
  }

  /** The king stands on file 4 of its home rank and is not attacked there. */
  predicate CastlingStart(st: GameState, from: Square, color: Color) {
    FileOf(from) == 4 && RankOf(from) == HomeRank(color) && !Attacked(st.board, from, Opponent(color))
  }

  /** The castling part of getKingMoves: the g-file target, then the c-file target. */
  function CastlingTargets(st: GameState, from: Square, color: Color): seq<Square> {
    if CastlingStart(st, from, color) then
      (if KingsideClear(st, color) then [HomeSquare(color, 6)] else []) + (if QueensideClear(st, color) then [HomeSquare(color, 2)] else [])
    else []
  }

  /** getKingMoves: the eight single steps, then castling. */
  function KingTargets(st: GameState, from: Square, color: Color): seq<Square> {
    StepTargets(st.board, from, color, KingOffsets) + CastlingTargets(st, from, color)
  }

  /** The kingside test of getKingMoves. */
  method KingsideCastle(st: GameState, color: Color) returns (ok: bool)
    ensures ok == KingsideClear(st, color)
  {
    var b, opponent := st.board, Opponent(color);
    ok := false;
    if KingsideRight(st.castling, color) {
      var f1, g1 := HomeSquare(color, 5), HomeSquare(color, 6);
      if b[f1].None? && b[g1].None? {
        var f1Attacked := IsSquareAttacked(b, f1, opponent);
        var g1Attacked := IsSquareAttacked(b, g1, opponent);
        ok := !f1Attacked && !g1Attacked;
      }
    }
  }

  /** The queenside test of getKingMoves. */
  method QueensideCastle(st: GameState, color: Color) returns (ok: bool)
    ensures ok == QueensideClear(st, color)
  {
    var b, opponent := st.board, Opponent(color);
    ok := false;
    if QueensideRight(st.castling, color) {
      var d1, c1, b1 := HomeSquare(color, 3), HomeSquare(color, 2), HomeSquare(color, 1);
      if b[d1].None? && b[c1].None? && b[b1].None? {
        var d1Attacked := IsSquareAttacked(b, d1, opponent);
        var c1Attacked := IsSquareAttacked(b, c1, opponent);
        ok := !d1Attacked && !c1Attacked;
      }
    }
  }

  /** The castling half of getKingMoves. */
  method CastlingMoves(st: GameState, from: Square, color: Color) returns (result: seq<Square>)
    ensures result == CastlingTargets(st, from, color)
  {
    var home := HomeRank(color);
    result := [];
    if FileOf(from) == 4 && RankOf(from) == home {
      var inCheck := IsSquareAttacked(st.board, from, Opponent(color));
      if !inCheck {
        var kingside := KingsideCastle(st, color);
        if kingside {
          result := result + [HomeSquare(color, 6)];
        }
        var queenside := QueensideCastle(st, color);
        if queenside {
          result := result + [HomeSquare(color, 2)];
        }
      }
    }
  }

  method KingMoves(st: GameState, from: Square, color: Color) returns (result: seq<Square>)
    ensures result == KingTargets(st, from, color)
  {
    var steps := StepMoves(st.board, from, color, KingOffsets);
    var castles := CastlingMoves(st, from, color);
    result := steps + castles;
  }

  // ---------------------------------------------------------------------------
  // Dispatch
  // ---------------------------------------------------------------------------

  /** getPseudoLegalMoves: nothing from an empty square, otherwise the generator of the piece's kind. */
  function PseudoTargets(st: GameState, from: Square): seq<Square> {
    match st.board[from]
      case None => []
      case Some(p) =>
        match p.kind
          case Pawn => PawnTargets(st, from, p.color)
          case Knight => StepTargets(st.board, from, p.color, KnightOffsets)
          case Bishop => BishopTargets(st.board, from, p.color)
          case Rook => RookTargets(st.board, from, p.color)
          case Queen => QueenTargets(st.board, from, p.color)
          case King => KingTargets(st, from, p.color)
  }

  method PseudoLegalMoves(st: GameState, from: Square) returns (result: seq<Square>)
    ensures result == PseudoTargets(st, from)
  {
    var piece := st.board[from];
    if piece.None? {
      return [];
    }
    var p := piece.value;
    match p.kind {
      case Pawn => result := PawnMoves(st, from, p.color);
      case Knight => result := KnightMoves(st.board, from, p.color);
      case Bishop => result := BishopMoves(st.board, from, p.color);
      case Rook => result := RookMoves(st.board, from, p.color);
      case Queen => result := QueenMoves(st.board, from, p.color);
      case King => result := KingMoves(st, from, p.color);
    }
  }

  // ---------------------------------------------------------------------------
  // Properties
  // ---------------------------------------------------------------------------

  /** Offset d from `from` stays on the board and lands on t. */
  predicate OffsetLands(from: Square, d: (int, int), t: Square) {
    InBounds(FileOf(from) + d.0, RankOf(from) + d.1) && ToIndex(FileOf(from) + d.0, RankOf(from) + d.1) == t
  }

  /** The step targets are exactly the enterable squares some offset lands on. */
  lemma {:induction false} StepTargetsMembers(b: Board, from: Square, color: Color, offsets: seq<(int, int)>, t: Square)
    ensures t in StepTargets(b, from, color, offsets) <==>
      Enterable(b, t, color) && exists j :: 0 <= j < |offsets| && OffsetLands(from, offsets[j], t)
    decreases |offsets|
  {
    if offsets != [] {
      var n := |offsets| - 1;
      var init := offsets[..n];
      StepTargetsMembers(b, from, color, init, t);
      StepTargetMember(b, from, color, offsets[n], t);
      assert StepTargets(b, from, color, offsets) == StepTargets(b, from, color, init) + StepTarget(b, from, color, offsets[n]);
      if t in StepTargets(b, from, color, init) {
        var j :| 0 <= j < |init| && OffsetLands(from, init[j], t);
        assert offsets[j] == init[j];
      }
      if Enterable(b, t, color) && exists j :: 0 <= j < |offsets| && OffsetLands(from, offsets[j], t) {
        var j :| 0 <= j < |offsets| && OffsetLands(from, offsets[j], t);
        if j < n {
          assert init[j] == offsets[j];
        }
      }
    }
  }

  /** One offset's target is t exactly when the offset lands on t and t is enterable. */
  lemma StepTargetMember(b: Board, from: Square, color: Color, d: (int, int), t: Square)
    ensures t in StepTarget(b, from, color, d) <==> Enterable(b, t, color) && OffsetLands(from, d, t)
  {
  }

  /** The first squares of `line` up to its first occupied one, plus that one when it holds an enemy. */
  function UpToBlocker(b: Board, color: Color, line: seq<Square>): seq<Square> {
    var k := FirstOccupied(b, line);
    line[..k] + (if k < |line| && b[line[k]].value.color != color then [line[k]] else [])
  }

  /** UpToBlocker on a line that starts with square i followed by `rest`. */
  lemma UpToBlockerCons(b: Board, color: Color, i: Square, rest: seq<Square>)
    ensures b[i].None? ==> UpToBlocker(b, color, [i] + rest) == [i] + UpToBlocker(b, color, rest)
    ensures b[i].Some? ==> UpToBlocker(b, color, [i] + rest) == if b[i].value.color != color then [i] else []
  {
    var line := [i] + rest;
    assert line[1..] == rest;
    if b[i].None? {
      var k := FirstOccupied(b, rest);
      assert FirstOccupied(b, line) == 1 + k;
      assert line[..1 + k] == [i] + rest[..k];
      if k < |rest| {
        assert line[1 + k] == rest[k];
      }
    }
  }

  /** A ray is its line cut at the first occupied square: every square before it is empty, and the
      occupied square itself is included exactly when it holds an enemy piece. */
  lemma {:induction false} RayUpToBlocker(b: Board, color: Color, f: int, r: int, df: int, dr: int)
    requires IsUnit(df, dr)
    ensures Ray(b, color, f, r, df, dr) == UpToBlocker(b, color, Line(f, r, df, dr))
    decreases Reach(f, r, df, dr)
  {
    if InBounds(f, r) {
      if b[ToIndex(f, r)].None? {
        RayUpToBlocker(b, color, f + df, r + dr, df, dr);
      }
      RayBlockerStep(b, color, f, r, df, dr);
    }
  }

  /** One square of RayUpToBlocker: an occupied square ends both sides alike, an empty one is
      added to both. */
  lemma RayBlockerStep(b: Board, color: Color, f: int, r: int, df: int, dr: int)
    requires IsUnit(df, dr) && InBounds(f, r)
    ensures b[ToIndex(f, r)].Some? ==> Ray(b, color, f, r, df, dr) == UpToBlocker(b, color, Line(f, r, df, dr))
    ensures b[ToIndex(f, r)].None? ==>
      Ray(b, color, f + df, r + dr, df, dr) == UpToBlocker(b, color, Line(f + df, r + dr, df, dr)) ==>
      Ray(b, color, f, r, df, dr) == UpToBlocker(b, color, Line(f, r, df, dr))
  {
    var i := ToIndex(f, r);
    var rest := Line(f + df, r + dr, df, dr);
    assert Line(f, r, df, dr) == [i] + rest;
    UpToBlockerCons(b, color, i, rest);
    RayStep(b, color, f, r, df, dr);
  }

  /** Every square of a ray is enterable. */
  lemma {:induction false} RayEnterable(b: Board, color: Color, f: int, r: int, df: int, dr: int)
    requires IsUnit(df, dr)
    ensures forall t :: t in Ray(b, color, f, r, df, dr) ==> Enterable(b, t, color)
    decreases Reach(f, r, df, dr)
  {
    if InBounds(f, r) && b[ToIndex(f, r)].None? {
      RayEnterable(b, color, f + df, r + dr, df, dr);
    }
  }

  lemma {:induction false} SlideTargetsEnterable(b: Board, from: Square, color: Color, dirs: seq<(int, int)>)
    requires AllUnit(dirs)
    ensures forall t :: t in SlideTargets(b, from, color, dirs) ==> Enterable(b, t, color)
    decreases |dirs|
  {
    if dirs != [] {
      var n := |dirs| - 1;
      SlideTargetsEnterable(b, from, color, dirs[..n]);
      RayEnterable(b, color, FileOf(from) + dirs[n].0, RankOf(from) + dirs[n].1, dirs[n].0, dirs[n].1);
    }
  }

  /** t is a pawn push: empty and one square ahead, or empty and two squares ahead from the start
      rank with the square in between empty too. */
  predicate PushTo(st: GameState, from: Square, color: Color, t: Square) {
    var one, two := from + 8 * Dir(color), from + 16 * Dir(color);
    st.board[t].None? &&
    (t == one || (t == two && RankOf(from) == PawnStartRank(color) && st.board[one].None?))
  }

  /** t is a pawn capture: diagonally ahead on an adjacent file, holding an enemy piece or being the
      en-passant square. */
  predicate DiagonalTo(st: GameState, from: Square, color: Color, t: Square) {
    var ahead := from + 8 * Dir(color);
    ((FileOf(from) > 0 && t == ahead - 1) || (FileOf(from) < 7 && t == ahead + 1)) &&
    ((st.board[t].Some? && st.board[t].value.color != color) || st.enPassant == Some(t))
  }

  /** The pawn targets are exactly the pushes and the diagonal captures. */
  lemma PawnTargetsMembers(st: GameState, from: Square, color: Color, t: Square)
    ensures t in PawnTargets(st, from, color) <==> PushTo(st, from, color, t) || DiagonalTo(st, from, color, t)
  {
    assert PawnCaptureFiles[..1] == [-1] && PawnCaptureFiles[..1][..0] == [];
    assert PawnCaptures(st, from, color, PawnCaptureFiles)
      == PawnCaptures(st, from, color, [-1]) + PawnCapture(st, from, color, 1);
    assert PawnCaptures(st, from, color, [-1]) == PawnCapture(st, from, color, -1);
    assert PawnTargets(st, from, color) ==
      PawnPushes(st, from, color) + (PawnCapture(st, from, color, -1) + PawnCapture(st, from, color, 1));
    PawnPushMember(st, from, color, t);
    PawnCaptureMember(st, from, color, -1, t);
    PawnCaptureMember(st, from, color, 1, t);
  }

  lemma PawnPushMember(st: GameState, from: Square, color: Color, t: Square)
    ensures t in PawnPushes(st, from, color) <==> PushTo(st, from, color, t)
  {
  }

  /** The diagonal on file offset df (one of -1, 1) holds t exactly when t is that square, on the
      board, and holds an enemy or is the en-passant square. */
  lemma PawnCaptureMember(st: GameState, from: Square, color: Color, df: int, t: Square)
    requires df == -1 || df == 1
    ensures t in PawnCapture(st, from, color, df) <==>
      0 <= FileOf(from) + df <= 7 && t == from + 8 * Dir(color) + df &&
      ((st.board[t].Some? && st.board[t].value.color != color) || st.enPassant == Some(t))
  {
  }

  /** The double step is offered exactly from the start rank over two empty squares. */
  lemma PawnDoubleStep(st: GameState, from: Square, color: Color)
    ensures var one, two := from + 8 * Dir(color), from + 16 * Dir(color);
      two in PawnTargets(st, from, color) <==>
        RankOf(from) == PawnStartRank(color) && st.board[one].None? && st.board[two].None?
  {
    var two := from + 16 * Dir(color);
    if 0 <= two < 64 {
      PawnTargetsMembers(st, from, color, two);
    }
  }

  /** The king targets are the enterable adjacent squares and the castling squares. */
  lemma KingTargetsMembers(st: GameState, from: Square, color: Color, t: Square)
    ensures t in KingTargets(st, from, color) <==>
      (Enterable(st.board, t, color) && exists j :: 0 <= j < |KingOffsets| && OffsetLands(from, KingOffsets[j], t))
      || (CastlingStart(st, from, color) &&
          ((t == HomeSquare(color, 6) && KingsideClear(st, color)) || (t == HomeSquare(color, 2) && QueensideClear(st, color))))
  {
    StepTargetsMembers(st.board, from, color, KingOffsets, t);
  }

  /** A single king step moves at most one file and never two squares in index. */
  lemma KingStepDistance(from: Square, d: (int, int), t: Square)
    requires IsUnit(d.0, d.1) && OffsetLands(from, d, t)
    ensures -1 <= FileOf(t) - FileOf(from) <= 1
    ensures t - from != 2 && from - t != 2
  {
    SquareCoordinates(from);
    IndexCoordinates(FileOf(from) + d.0, RankOf(from) + d.1);
  }

  /** Castling targets are two squares along the home rank from file 4. */
  lemma CastlingTargetShape(st: GameState, from: Square, color: Color, t: Square)
    requires t in CastlingTargets(st, from, color)
    ensures CastlingStart(st, from, color)
    ensures (t == HomeSquare(color, 6) && KingsideClear(st, color) && t - from == 2 && FileOf(t) - FileOf(from) == 2)
         || (t == HomeSquare(color, 2) && QueensideClear(st, color) && from - t == 2 && FileOf(t) - FileOf(from) == -2)
  {
    var home := HomeRank(color);
    assert CastlingStart(st, from, color);
    HomeSquareCoordinates(color, 4, from);
    HomeSquareCoordinates(color, 6, from);
    HomeSquareCoordinates(color, 2, from);
    assert t == HomeSquare(color, 6) || t == HomeSquare(color, 2);
  }

  /** A king target two files away is a castling target, two squares along the home rank. */
  lemma KingJumpIsCastling(st: GameState, from: Square, color: Color, t: Square)
    requires t in KingTargets(st, from, color)
    ensures FileOf(t) - FileOf(from) == 2 <==> t - from == 2
    ensures FileOf(t) - FileOf(from) == -2 <==> from - t == 2
    ensures t - from == 2 ==> CastlingStart(st, from, color) && t == HomeSquare(color, 6) && KingsideClear(st, color)
    ensures from - t == 2 ==> CastlingStart(st, from, color) && t == HomeSquare(color, 2) && QueensideClear(st, color)
  {
    if t in StepTargets(st.board, from, color, KingOffsets) {
      StepTargetsMembers(st.board, from, color, KingOffsets, t);
      var j :| 0 <= j < |KingOffsets| && OffsetLands(from, KingOffsets[j], t);
      SlidingDirectionsAreUnit();
      assert IsUnit(KingOffsets[j].0, KingOffsets[j].1);
      KingStepDistance(from, KingOffsets[j], t);
    } else {
      CastlingTargetShape(st, from, color, t);
    }
  }

  /** Pseudo-legal targets never hold a piece of the mover's color, except that a pawn may
      be offered the en-passant square whatever stands on it. */
  lemma PseudoTargetsEnterable(st: GameState, from: Square, t: Square)
    requires st.board[from].Some? && t in PseudoTargets(st, from)
    ensures var p := st.board[from].value;
      Enterable(st.board, t, p.color) || (p.kind == Pawn && st.enPassant == Some(t))
  {
    var p := st.board[from].value;
    SlidingDirectionsAreUnit();
    match p.kind
    case Pawn => PawnTargetsMembers(st, from, p.color, t);
    case Knight => StepTargetsMembers(st.board, from, p.color, KnightOffsets, t);
    case Bishop => SlideTargetsEnterable(st.board, from, p.color, Diagonals);
    case Rook => SlideTargetsEnterable(st.board, from, p.color, Straights);
    case Queen =>
      SlideTargetsEnterable(st.board, from, p.color, Diagonals);
      SlideTargetsEnterable(st.board, from, p.color, Straights);
    case King => KingTargetsMembers(st, from, p.color, t);
  }
}
