/**
 * Square arithmetic and board geometry (src/chess/rules.ts, "Helpers").
 * Offsets are written (file delta, rank delta).
 */
module Squares {
  import opened Types

  function FileOf(i: Square): int { i % 8 }
  function RankOf(i: Square): int { i / 8 }

  predicate InBounds(f: int, r: int) { 0 <= f < 8 && 0 <= r < 8 }

  /** toIndex: the square at file f and rank r; on the board it is the inverse of FileOf/RankOf. */
  function ToIndex(f: int, r: int): (i: int)
    ensures InBounds(f, r) ==> 0 <= i < 64
  {
    r * 8 + f
  }

  /** On the board, ToIndex inverts FileOf/RankOf. */
  lemma IndexCoordinates(f: int, r: int)
    requires InBounds(f, r)
    ensures FileOf(ToIndex(f, r)) == f && RankOf(ToIndex(f, r)) == r
  {
  }

  lemma SquareCoordinates(i: Square)
    ensures InBounds(FileOf(i), RankOf(i)) && ToIndex(FileOf(i), RankOf(i)) == i
  {
  }

  /** The direction pawns of a color advance in, as a rank delta. */
  function Dir(c: Color): int {
    if c == White then 1 else -1
  }

  /** The rank a color's king and rooks start on. */
  function HomeRank(c: Color): int {
    if c == White then 0 else 7
  }

  /** The square on file f of color's home rank. */
  function HomeSquare(color: Color, f: int): Square
    requires 0 <= f < 8
  {
    if color == White then f else 56 + f
  }

  /** HomeSquare is the square at file f of rank HomeRank(color), and the only one. */
  lemma HomeSquareCoordinates(color: Color, f: int, i: Square)
    requires 0 <= f < 8
    ensures FileOf(HomeSquare(color, f)) == f && RankOf(HomeSquare(color, f)) == HomeRank(color)
    ensures FileOf(i) == f && RankOf(i) == HomeRank(color) ==> i == HomeSquare(color, f)
  {
  }

  /** The rank a color's pawns start on. */
  function PawnStartRank(c: Color): int {
    if c == White then 1 else 6
  }

  /** Knight jumps; the source lists them rank delta first, in this order. */
  const KnightOffsets: seq<(int, int)> := [(-1, -2), (1, -2), (-2, -1), (2, -1), (-2, 1), (2, 1), (-1, 2), (1, 2)]
  const KingOffsets: seq<(int, int)> := [(1, 0), (1, 1), (0, 1), (-1, 1), (-1, 0), (-1, -1), (0, -1), (1, -1)]
  const Diagonals: seq<(int, int)> := [(1, 1), (1, -1), (-1, 1), (-1, -1)]
  const Straights: seq<(int, int)> := [(1, 0), (-1, 0), (0, 1), (0, -1)]
  /** The file deltas a pawn captures towards, in order. */
  const PawnCaptureFiles: seq<int> := [-1, 1]

  /** A one-square step in one of the eight directions. */
  predicate IsUnit(df: int, dr: int) {
    -1 <= df <= 1 && -1 <= dr <= 1 && (df != 0 || dr != 0)
  }

  predicate AllUnit(ds: seq<(int, int)>) {
    forall j :: 0 <= j < |ds| ==> IsUnit(ds[j].0, ds[j].1)
  }

  lemma SlidingDirectionsAreUnit()
    ensures AllUnit(Diagonals) && AllUnit(Straights) && AllUnit(KingOffsets)
  {
  }

  /** How many steps in direction (df, dr) stay on the board, plus the number of moving axes;
      a walk in that direction decreases it at every on-board step. */
  function Reach(f: int, r: int, df: int, dr: int): int {
    (if df > 0 then 8 - f else if df < 0 then f + 1 else 0) +
    (if dr > 0 then 8 - r else if dr < 0 then r + 1 else 0)
  }

  /** Every on-board square from (f, r) onwards in direction (df, dr), nearest first. */
  function Line(f: int, r: int, df: int, dr: int): (line: seq<Square>)
    requires IsUnit(df, dr)
    ensures InBounds(f, r) <==> line != []
    decreases Reach(f, r, df, dr)
  {
    if !InBounds(f, r) then [] else [ToIndex(f, r)] + Line(f + df, r + dr, df, dr)
  }

  /** The position in `line` of its first occupied square, or |line| when every square is empty. */
  function FirstOccupied(b: Board, line: seq<Square>): (k: nat)
    ensures k <= |line|
    ensures forall j :: 0 <= j < k ==> b[line[j]].None?
    ensures k < |line| ==> b[line[k]].Some?
  {
    if line == [] || b[line[0]].Some? then 0 else 1 + FirstOccupied(b, line[1..])
  }
}
