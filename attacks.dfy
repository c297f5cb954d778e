/** Attack detection (src/chess/rules.ts, isSquareAttacked). */
module Attacks {
  import opened Wrappers
  import opened Types
  import opened Squares

  /** (f, r) is on the board and holds exactly piece p. */
  predicate HoldsPiece(b: Board, f: int, r: int, p: Piece) {
    InBounds(f, r) && b[ToIndex(f, r)] == Some(p)
  }

  /** The square at offset d from s holds a `kind` of color `attacker`. */
  predicate StepHit(b: Board, s: Square, attacker: Color, d: (int, int), kind: PieceKind) {
    HoldsPiece(b, FileOf(s) + d.0, RankOf(s) + d.1, Piece(kind, attacker))
  }

  /** Some offset from s lands on a `kind` of color `attacker`: knight jumps and king steps. */
  predicate StepAttack(b: Board, s: Square, attacker: Color, offsets: seq<(int, int)>, kind: PieceKind)
    decreases |offsets|
  {
    offsets != [] &&
    (StepAttack(b, s, attacker, offsets[..|offsets| - 1], kind) || StepHit(b, s, attacker, offsets[|offsets| - 1], kind))
  }

  /** A pawn of `attacker` stands one rank behind s (from that pawn's point of view), one file to either side. */
  predicate PawnAttack(b: Board, s: Square, attacker: Color) {
    var pawnRank := RankOf(s) - Dir(attacker);
    HoldsPiece(b, FileOf(s) - 1, pawnRank, Piece(Pawn, attacker)) || HoldsPiece(b, FileOf(s) + 1, pawnRank, Piece(Pawn, attacker))
  }

  /** Walking from (f, r) in direction (df, dr), the first occupied square holds a `kind` or a queen of `attacker`. */
  predicate SlideHit(b: Board, f: int, r: int, df: int, dr: int, attacker: Color, kind: PieceKind)
    requires IsUnit(df, dr)
    decreases Reach(f, r, df, dr)
  {
    if !InBounds(f, r) then false
    else match b[ToIndex(f, r)]
      case None => SlideHit(b, f + df, r + dr, df, dr, attacker, kind)
      case Some(p) => p.color == attacker && (p.kind == kind || p.kind == Queen)
  }

  /** The line from s in direction d ends at an attacker. */
  predicate DirectionHit(b: Board, s: Square, attacker: Color, d: (int, int), kind: PieceKind)
    requires IsUnit(d.0, d.1)
  {
    SlideHit(b, FileOf(s) + d.0, RankOf(s) + d.1, d.0, d.1, attacker, kind)
  }

  /** Some direction of `dirs` ends at an attacker. */
  predicate SlideAttack(b: Board, s: Square, attacker: Color, dirs: seq<(int, int)>, kind: PieceKind)
    requires AllUnit(dirs)
    decreases |dirs|
  {
    dirs != [] &&
    (SlideAttack(b, s, attacker, dirs[..|dirs| - 1], kind) || DirectionHit(b, s, attacker, dirs[|dirs| - 1], kind))
  }

  /** Section k of isSquareAttacked, in source order: knight jumps, pawn diagonals, king
      adjacency, bishop/queen diagonals, rook/queen ranks and files. */
  predicate SectionHit(b: Board, s: Square, attacker: Color, k: nat) {
    SlidingDirectionsAreUnit();
    if k == 0 then StepAttack(b, s, attacker, KnightOffsets, Knight)
    else if k == 1 then PawnAttack(b, s, attacker)
    else if k == 2 then StepAttack(b, s, attacker, KingOffsets, King)
    else if k == 3 then SlideAttack(b, s, attacker, Diagonals, Bishop)
    else k == 4 && SlideAttack(b, s, attacker, Straights, Rook)
  }

  /** One of the first n sections finds an attacker. */
  predicate SectionsHit(b: Board, s: Square, attacker: Color, n: nat) {
    n > 0 && (SectionsHit(b, s, attacker, n - 1) || SectionHit(b, s, attacker, n - 1))
  }

  /** `attacker` attacks s: one of the five sections of isSquareAttacked finds an attacker. */
  predicate Attacked(b: Board, s: Square, attacker: Color) {
    SectionsHit(b, s, attacker, 5)
  }

  /** Attacked spelled out: a knight jump, a pawn diagonal, king adjacency, or an unblocked
      bishop/rook/queen line. */
  lemma AttackedCases(b: Board, s: Square, attacker: Color)
    ensures AllUnit(Diagonals) && AllUnit(Straights)
    ensures Attacked(b, s, attacker) <==>
        StepAttack(b, s, attacker, KnightOffsets, Knight) ||
        PawnAttack(b, s, attacker) ||
        StepAttack(b, s, attacker, KingOffsets, King) ||
        SlideAttack(b, s, attacker, Diagonals, Bishop) ||
        SlideAttack(b, s, attacker, Straights, Rook)
  {
    SlidingDirectionsAreUnit();
    assert SectionsHit(b, s, attacker, 5) <==> SectionsHit(b, s, attacker, 4) || SectionHit(b, s, attacker, 4);
    assert SectionsHit(b, s, attacker, 4) <==> SectionsHit(b, s, attacker, 3) || SectionHit(b, s, attacker, 3);
    assert SectionsHit(b, s, attacker, 3) <==> SectionsHit(b, s, attacker, 2) || SectionHit(b, s, attacker, 2);
    assert SectionsHit(b, s, attacker, 2) <==> SectionsHit(b, s, attacker, 1) || SectionHit(b, s, attacker, 1);
    assert SectionsHit(b, s, attacker, 1) <==> SectionHit(b, s, attacker, 0);
  }

  /** A hit among the first k offsets is a hit among all of them. */
  lemma {:induction false} StepAttackExtends(b: Board, s: Square, attacker: Color, offsets: seq<(int, int)>, kind: PieceKind, k: nat)
    requires k <= |offsets| && StepAttack(b, s, attacker, offsets[..k], kind)
    ensures StepAttack(b, s, attacker, offsets, kind)
    decreases |offsets| - k
  {
    if k < |offsets| {
      assert offsets[..k + 1][..k] == offsets[..k];
      StepAttackExtends(b, s, attacker, offsets, kind, k + 1);
    } else {
      assert offsets[..k] == offsets;
    }
  }

  /** One more direction: an attack along the first j + 1 directions is one along the first j or
      along direction j. */
  lemma SlideAttackSnoc(b: Board, s: Square, attacker: Color, dirs: seq<(int, int)>, kind: PieceKind, j: nat)
    requires AllUnit(dirs) && j < |dirs|
    ensures IsUnit(dirs[j].0, dirs[j].1)
    ensures SlideAttack(b, s, attacker, dirs[..j + 1], kind) <==>
      SlideAttack(b, s, attacker, dirs[..j], kind) ||
      SlideHit(b, FileOf(s) + dirs[j].0, RankOf(s) + dirs[j].1, dirs[j].0, dirs[j].1, attacker, kind)
  {
    assert dirs[..j + 1][..j] == dirs[..j];
  }

  /** A hit along the first k directions is a hit along all of them. */
  lemma {:induction false} SlideAttackExtends(b: Board, s: Square, attacker: Color, dirs: seq<(int, int)>, kind: PieceKind, k: nat)
    requires AllUnit(dirs) && k <= |dirs| && SlideAttack(b, s, attacker, dirs[..k], kind)
    ensures SlideAttack(b, s, attacker, dirs, kind)
    decreases |dirs| - k
  {
    if k < |dirs| {
      assert dirs[..k + 1][..k] == dirs[..k];
      SlideAttackExtends(b, s, attacker, dirs, kind, k + 1);
    } else {
      assert dirs[..k] == dirs;
    }
  }

  /** The knight and king sections of isSquareAttacked: try each offset, stop at the first hit. */
  method StepScan(b: Board, s: Square, attacker: Color, offsets: seq<(int, int)>, kind: PieceKind) returns (hit: bool)
    ensures hit == StepAttack(b, s, attacker, offsets, kind)
  {
    var file, rank := FileOf(s), RankOf(s);
    for j := 0 to |offsets|
      invariant !StepAttack(b, s, attacker, offsets[..j], kind)
    {
      assert offsets[..j + 1][..j] == offsets[..j];
      assert StepAttack(b, s, attacker, offsets[..j + 1], kind)
        == (StepAttack(b, s, attacker, offsets[..j], kind) || StepHit(b, s, attacker, offsets[j], kind));
      var (df, dr) := offsets[j];
      var f, r := file + df, rank + dr;
      if InBounds(f, r) {
        var p := b[ToIndex(f, r)];
        if p.Some? && p.value.color == attacker && p.value.kind == kind {
          assert StepAttack(b, s, attacker, offsets[..j + 1], kind);
          StepAttackExtends(b, s, attacker, offsets, kind, j + 1);
          return true;
        }
      }
    }
    assert offsets[..|offsets|] == offsets;
    return false;
  }

  /** The pawn section of isSquareAttacked. */
  method PawnScan(b: Board, s: Square, attacker: Color) returns (hit: bool)
    ensures hit == PawnAttack(b, s, attacker)
  {
    var file, rank := FileOf(s), RankOf(s);
    var pawnRank := rank - Dir(attacker);
    for j := 0 to |PawnCaptureFiles|
      invariant forall j' :: 0 <= j' < j ==> !HoldsPiece(b, file + PawnCaptureFiles[j'], pawnRank, Piece(Pawn, attacker))
    {
      var pf := file + PawnCaptureFiles[j];
      if InBounds(pf, pawnRank) {
        var p := b[ToIndex(pf, pawnRank)];
        if p.Some? && p.value.color == attacker && p.value.kind == Pawn {
          return true;
        }
      }
    }
    assert PawnCaptureFiles[0] == -1 && PawnCaptureFiles[1] == 1;
    return false;
  }

  /** SlideHit on an on-board square: the piece there decides, an empty square passes on to the
      next one, which is nearer the edge. */
  lemma SlideHitUnfold(b: Board, f: int, r: int, df: int, dr: int, attacker: Color, kind: PieceKind)
    requires IsUnit(df, dr) && InBounds(f, r)
    ensures Reach(f + df, r + dr, df, dr) < Reach(f, r, df, dr)
    ensures b[ToIndex(f, r)].None? ==>
      SlideHit(b, f, r, df, dr, attacker, kind) == SlideHit(b, f + df, r + dr, df, dr, attacker, kind)
    ensures b[ToIndex(f, r)].Some? ==> (SlideHit(b, f, r, df, dr, attacker, kind) <==>
      b[ToIndex(f, r)].value.color == attacker &&
      (b[ToIndex(f, r)].value.kind == kind || b[ToIndex(f, r)].value.kind == Queen))
  {
  }

  /** One line of the sliding sections of isSquareAttacked: walk from (f, r) until the first occupied square. */
  method LineScan(b: Board, f0: int, r0: int, df: int, dr: int, attacker: Color, kind: PieceKind) returns (hit: bool)
    requires IsUnit(df, dr)
    ensures hit == SlideHit(b, f0, r0, df, dr, attacker, kind)
  {
    var f, r := f0, r0;
    while InBounds(f, r)
      invariant SlideHit(b, f0, r0, df, dr, attacker, kind) == SlideHit(b, f, r, df, dr, attacker, kind)
      decreases Reach(f, r, df, dr)
    {
      SlideHitUnfold(b, f, r, df, dr, attacker, kind);
      var p := b[ToIndex(f, r)];
      if p.Some? {
        return p.value.color == attacker && (p.value.kind == kind || p.value.kind == Queen);
      }
      f, r := f + df, r + dr;
    }
    return false;
  }

  /** The sliding sections of isSquareAttacked: each direction in turn. */
  method SlideScan(b: Board, s: Square, attacker: Color, dirs: seq<(int, int)>, kind: PieceKind) returns (hit: bool)
    requires AllUnit(dirs)
    ensures hit == SlideAttack(b, s, attacker, dirs, kind)
  {
    var file, rank := FileOf(s), RankOf(s);
    for j := 0 to |dirs|
      invariant !SlideAttack(b, s, attacker, dirs[..j], kind)
    {
      SlideAttackSnoc(b, s, attacker, dirs, kind, j);
      var (df, dr) := dirs[j];
      hit := LineScan(b, file + df, rank + dr, df, dr, attacker, kind);
      if hit {
        SlideAttackExtends(b, s, attacker, dirs, kind, j + 1);
        return;
      }
    }
    assert dirs[..|dirs|] == dirs;
    return false;
  }

  /** isSquareAttacked: knights, then pawns, then the king, then bishops/queens on the diagonals and
      rooks/queens on ranks and files; true as soon as one section finds an attacker. */
  method IsSquareAttacked(b: Board, s: Square, attacker: Color) returns (attacked: bool)
    ensures attacked == Attacked(b, s, attacker)
  {
    SlidingDirectionsAreUnit();
    AttackedCases(b, s, attacker);
    attacked := StepScan(b, s, attacker, KnightOffsets, Knight);
    if attacked { return; }
    attacked := PawnScan(b, s, attacker);
    if attacked { return; }
    attacked := StepScan(b, s, attacker, KingOffsets, King);
    if attacked { return; }
    attacked := SlideScan(b, s, attacker, Diagonals, Bishop);
    if attacked { return; }
    attacked := SlideScan(b, s, attacker, Straights, Rook);
  }

  // ---------------------------------------------------------------------------
  // Properties
  // ---------------------------------------------------------------------------

  /** The recursive step sections agree with "some offset lands on such a piece". */
  lemma {:induction false} StepAttackWitness(b: Board, s: Square, attacker: Color, offsets: seq<(int, int)>, kind: PieceKind)
    ensures StepAttack(b, s, attacker, offsets, kind) <==> exists j :: 0 <= j < |offsets| && StepHit(b, s, attacker, offsets[j], kind)
    decreases |offsets|
  {
    if offsets != [] {
      var n := |offsets| - 1;
      StepAttackWitness(b, s, attacker, offsets[..n], kind);
      assert forall j :: 0 <= j < n ==> offsets[..n][j] == offsets[j];
    }
  }

  /** The recursive slide sections agree with "some direction ends at such a piece". */
  lemma {:induction false} SlideAttackWitness(b: Board, s: Square, attacker: Color, dirs: seq<(int, int)>, kind: PieceKind)
    requires AllUnit(dirs)
    ensures SlideAttack(b, s, attacker, dirs, kind) <==> exists j :: 0 <= j < |dirs| && DirectionHit(b, s, attacker, dirs[j], kind)
    decreases |dirs|
  {
    if dirs != [] {
      var n := |dirs| - 1;
      SlideAttackWitness(b, s, attacker, dirs[..n], kind);
      assert forall j :: 0 <= j < n ==> dirs[..n][j] == dirs[j];
    }
  }

  /** The first occupied square of `line` exists and holds a `kind` or a queen of `attacker`. */
  predicate BlockerIs(b: Board, line: seq<Square>, attacker: Color, kind: PieceKind) {
    var k := FirstOccupied(b, line);
    k < |line| && b[line[k]].value.color == attacker && (b[line[k]].value.kind == kind || b[line[k]].value.kind == Queen)
  }

  /** BlockerIs on a line that starts with square i followed by `rest`. */
  lemma BlockerCons(b: Board, i: Square, rest: seq<Square>, attacker: Color, kind: PieceKind)
    ensures b[i].None? ==> (BlockerIs(b, [i] + rest, attacker, kind) <==> BlockerIs(b, rest, attacker, kind))
    ensures b[i].Some? ==>
      (BlockerIs(b, [i] + rest, attacker, kind) <==>
       b[i].value.color == attacker && (b[i].value.kind == kind || b[i].value.kind == Queen))
  {
    var line := [i] + rest;
    assert line[1..] == rest;
    if b[i].None? {
      var k := FirstOccupied(b, rest);
      assert FirstOccupied(b, line) == 1 + k;
      if k < |rest| {
        assert line[1 + k] == rest[k];
      }
    }
  }

  /** A line attack read off the line itself: the first occupied square along Line(f, r, df, dr)
      exists and holds a `kind` or a queen of `attacker`; squares before it are empty. */
  lemma {:induction false} SlideHitFirstOccupied(b: Board, f: int, r: int, df: int, dr: int, attacker: Color, kind: PieceKind)
    requires IsUnit(df, dr)
    ensures SlideHit(b, f, r, df, dr, attacker, kind) <==> BlockerIs(b, Line(f, r, df, dr), attacker, kind)
    decreases Reach(f, r, df, dr)
  {
    if InBounds(f, r) {
      if b[ToIndex(f, r)].None? {
        SlideHitFirstOccupied(b, f + df, r + dr, df, dr, attacker, kind);
      }
      SlideHitStep(b, f, r, df, dr, attacker, kind);
    }
  }

  /** One square of SlideHitFirstOccupied: an occupied square decides both sides alike, an empty
      one passes both on to the next square. */
  lemma SlideHitStep(b: Board, f: int, r: int, df: int, dr: int, attacker: Color, kind: PieceKind)
    requires IsUnit(df, dr) && InBounds(f, r)
    ensures b[ToIndex(f, r)].Some? ==>
      (SlideHit(b, f, r, df, dr, attacker, kind) <==> BlockerIs(b, Line(f, r, df, dr), attacker, kind))
    ensures b[ToIndex(f, r)].None? ==>
      (SlideHit(b, f + df, r + dr, df, dr, attacker, kind) <==> BlockerIs(b, Line(f + df, r + dr, df, dr), attacker, kind)) ==>
      (SlideHit(b, f, r, df, dr, attacker, kind) <==> BlockerIs(b, Line(f, r, df, dr), attacker, kind))
  {
    var i, rest := ToIndex(f, r), Line(f + df, r + dr, df, dr);
    assert Line(f, r, df, dr) == [i] + rest;
    BlockerCons(b, i, rest, attacker, kind);
  }
}
