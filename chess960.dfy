/**
 * The Chess960 starting position of ChessEngine.reset(true) (src/chess/engine.ts, generateChess960State).
 * The five uses of Math.random are the fields of a Draws value: each is the index the source would
 * pick from the list it draws from.
 */
module Chess960 {
  import opened Wrappers
  import opened Types

  /** The back rank while it is filled in: an empty slot or the kind placed there. */
  type Slots = seq<Option<PieceKind>>

  /** The random picks: a light file 2*light, a dark file 2*dark+1, then positions in the lists of
      empty slots for the queen, the first knight and the second knight. */
  datatype Draws = Draws(light: nat, dark: nat, queen: nat, knight1: nat, knight2: nat)

  /** Each pick lies below the length of the list it is drawn from. */
  predicate ValidDraws(d: Draws) {
    d.light < 4 && d.dark < 4 && d.queen < 6 && d.knight1 < 5 && d.knight2 < 4
  }

  const Unfilled: Slots := [None, None, None, None, None, None, None, None]

  /** How many slots hold x. */
  function Count(p: Slots, x: Option<PieceKind>): (n: nat)
    ensures n <= |p|
    decreases |p|
  {
    if p == [] then 0 else Count(p[..|p| - 1], x) + (if p[|p| - 1] == x then 1 else 0)
  }

  /** The indices of the empty slots, in ascending order (the map-then-filter of the source). */
  function EmptySlots(pieces: Slots): (fs: seq<int>)
    ensures |fs| == Count(pieces, None)
    decreases |pieces|
  {
    if pieces == [] then []
    else
      var n := |pieces| - 1;
      EmptySlots(pieces[..n]) + (if pieces[n] == None then [n] else [])
  }

  /** Every listed slot is a slot of the rank and is empty. */
  lemma {:induction false} EmptySlotsMember(pieces: Slots, j: int)
    requires 0 <= j < |EmptySlots(pieces)|
    ensures 0 <= EmptySlots(pieces)[j] < |pieces| && pieces[EmptySlots(pieces)[j]] == None
    decreases |pieces|
  {
    var n := |pieces| - 1;
    if j < |EmptySlots(pieces[..n])| {
      EmptySlotsMember(pieces[..n], j);
    }
  }

  /** Every empty slot is listed. */
  lemma {:induction false} EmptySlotsComplete(pieces: Slots, i: int)
    requires 0 <= i < |pieces| && pieces[i] == None
    ensures i in EmptySlots(pieces)
    decreases |pieces|
  {
    var n := |pieces| - 1;
    if i < n {
      EmptySlotsComplete(pieces[..n], i);
    }
  }

  /** The n-th empty slot. */
  function NthEmpty(p: Slots, n: nat): (i: int)
    requires n < Count(p, None)
    ensures 0 <= i < |p| && p[i] == None
  {
    EmptySlotsMember(p, n);
    EmptySlots(p)[n]
  }

  /** The empty slots are listed in ascending order. */
  lemma {:induction false} EmptySlotsAscending(pieces: Slots, j: int, k: int)
    requires 0 <= j < k < |EmptySlots(pieces)|
    ensures EmptySlots(pieces)[j] < EmptySlots(pieces)[k]
    decreases |pieces|
  {
    var n := |pieces| - 1;
    var front := EmptySlots(pieces[..n]);
    if k < |front| {
      EmptySlotsAscending(pieces[..n], j, k);
    } else {
      EmptySlotsMember(pieces[..n], j);
    }
  }

  /** The list without its entry at position k. */
  function RemoveAt(fs: seq<int>, k: nat): (r: seq<int>)
    requires k < |fs|
    ensures |r| == |fs| - 1
    ensures forall j :: 0 <= j < |r| ==> r[j] == (if j < k then fs[j] else fs[j + 1])
  {
    fs[..k] + fs[k + 1..]
  }

  /** Kind k on the n-th empty slot. */
  function PlaceNth(p: Slots, n: nat, k: PieceKind): (q: Slots)
    requires n < Count(p, None)
    ensures |q| == |p| && Count(q, None) == Count(p, None) - 1
  {
    var i := NthEmpty(p, n);
    PlaceCount(p, i, k, None);
    p[i := Some(k)]
  }

  /** Step 1: the bishops on file 2*light and file 2*dark+1. */
  function WithBishops(light: nat, dark: nat): (p: Slots)
    requires light < 4 && dark < 4
    ensures |p| == 8 && Count(p, None) == 6
  {
    CountAll(Unfilled, None);
    PlaceCount(Unfilled, 2 * light, Bishop, None);
    PlaceCount(Unfilled[2 * light := Some(Bishop)], 2 * dark + 1, Bishop, None);
    Unfilled[2 * light := Some(Bishop)][2 * dark + 1 := Some(Bishop)]
  }

  /** Steps 2 and 3: the queen on empty slot `queen`; the first knight on empty slot `knight1`; the
      second on entry `knight2` of the list of empty slots with the first knight's entry removed,
      which is entry `knight2` of the slots still empty (EmptySlotsAfterPlace). */
  function WithQueenAndKnights(d: Draws): (p: Slots)
    requires ValidDraws(d)
    ensures |p| == 8 && Count(p, None) == 3
  {
    PlaceNth(PlaceNth(PlaceNth(WithBishops(d.light, d.dark), d.queen, Queen), d.knight1, Knight), d.knight2, Knight)
  }

  /** Step 4: rook, king, rook on the three slots still empty, left to right: each goes on the first
      slot still empty. */
  function Chess960Slots(d: Draws): (p: Slots)
    requires ValidDraws(d)
    ensures |p| == 8 && forall i :: 0 <= i < 8 ==> p[i].Some?
  {
    var p := PlaceNth(PlaceNth(PlaceNth(WithQueenAndKnights(d), 0, Rook), 0, King), 0, Rook);
    CountZero(p, None);
    p
  }

  // ---------------------------------------------------------------------------
  // Facts about one placement
  // ---------------------------------------------------------------------------

  /** A placement fills one empty slot and keeps every other slot. */
  lemma PlaceNthSlots(p: Slots, n: nat, k: PieceKind)
    requires n < Count(p, None)
    ensures var q, i := PlaceNth(p, n, k), NthEmpty(p, n);
      p[i] == None && q[i] == Some(k) && forall j :: 0 <= j < |p| && j != i ==> q[j] == p[j]
  {
  }

  /** The slots still empty after a placement are the earlier list without the entry used. */
  lemma EmptySlotsAfterPlace(p: Slots, n: nat, k: PieceKind)
    requires n < Count(p, None)
    ensures EmptySlots(PlaceNth(p, n, k)) == RemoveAt(EmptySlots(p), n)
  {
    var after := EmptySlots(PlaceNth(p, n, k));
    forall m | 0 <= m < |after|
      ensures after[m] == RemoveAt(EmptySlots(p), n)[m]
    {
      EmptySlotsAfterPlaceAt(p, n, k, m);
    }
  }

  /** Entry m of the slots still empty after a placement on the n-th empty slot is the earlier
      entry m, or m + 1 from n on. */
  lemma {:induction false} EmptySlotsAfterPlaceAt(p: Slots, n: nat, k: PieceKind, m: nat)
    requires n < Count(p, None) && m < Count(p, None) - 1
    ensures EmptySlots(PlaceNth(p, n, k))[m] == EmptySlots(p)[if m < n then m else m + 1]
    decreases |p|
  {
    var last := |p| - 1;
    var front := EmptySlots(p[..last]);
    var q := PlaceNth(p, n, k);
    EmptySlotsUnfold(p);
    EmptySlotsUnfold(q);
    if n < |front| {
      EmptySlotsMember(p[..last], n);
      assert q[..last] == PlaceNth(p[..last], n, k);
      if m < |front| - 1 {
        EmptySlotsAfterPlaceAt(p[..last], n, k, m);
      }
    } else {
      assert q[..last] == p[..last];
    }
  }

  lemma EmptySlotsUnfold(p: Slots)
    requires |p| > 0
    ensures EmptySlots(p) == EmptySlots(p[..|p| - 1]) + (if p[|p| - 1] == None then [|p| - 1] else [])
  {
  }

  lemma {:induction false} PlaceCount(p: Slots, i: int, k: PieceKind, x: Option<PieceKind>)
    requires 0 <= i < |p| && p[i] == None
    ensures Count(p[i := Some(k)], x) == Count(p, x) - (if x == None then 1 else 0) + (if x == Some(k) then 1 else 0)
    decreases |p|
  {
    var n := |p| - 1;
    if i == n {
      assert p[i := Some(k)][..n] == p[..n];
    } else {
      assert p[i := Some(k)][..n] == p[..n][i := Some(k)];
      PlaceCount(p[..n], i, k, x);
    }
  }

  lemma {:induction false} CountAll(p: Slots, x: Option<PieceKind>)
    requires forall i :: 0 <= i < |p| ==> p[i] == x
    ensures Count(p, x) == |p|
    decreases |p|
  {
    if p != [] {
      CountAll(p[..|p| - 1], x);
    }
  }

  lemma {:induction false} CountZero(p: Slots, x: Option<PieceKind>)
    ensures Count(p, x) == 0 <==> forall i :: 0 <= i < |p| ==> p[i] != x
    decreases |p|
  {
    if p != [] {
      CountZero(p[..|p| - 1], x);
      assert forall i :: 0 <= i < |p| - 1 ==> p[..|p| - 1][i] == p[i];
    }
  }

  /** The kinds of a filled back rank, file by file (the `pieces[f]!` of the board loop). */
  function Kinds(p: Slots): (ks: seq<PieceKind>)
    requires forall i :: 0 <= i < |p| ==> p[i].Some?
    ensures |ks| == |p| && forall i :: 0 <= i < |p| ==> p[i] == Some(ks[i])
    decreases |p|
  {
    if p == [] then [] else Kinds(p[..|p| - 1]) + [p[|p| - 1].value]
  }

  function Chess960Rank(d: Draws): (rank: seq<PieceKind>)
    requires ValidDraws(d)
    ensures |rank| == 8
  {
    Kinds(Chess960Slots(d))
  }

  /** A square of the starting layout whose back rank, files a to h, is `rank`. */
  function LayoutSquare(rank: seq<PieceKind>, i: Square): Option<Piece>
    requires |rank| == 8
  {
    if i < 8 then Some(Piece(rank[i], White))
    else if i < 16 then Some(Piece(Pawn, White))
    else if i < 48 then None
    else if i < 56 then Some(Piece(Pawn, Black))
    else Some(Piece(rank[i - 56], Black))
  }

  function LayoutBoard(rank: seq<PieceKind>): Board
    requires |rank| == 8
  {
    seq(64, i requires 0 <= i < 64 => LayoutSquare(rank, i))
  }

  /** generateChess960State: the layout with the drawn back rank, White to move, all four castling
      rights, no en-passant square, clocks 0 and 1. */
  function Chess960State(d: Draws): GameState
    requires ValidDraws(d)
  {
    GameState(LayoutBoard(Chess960Rank(d)), White, CastlingRights(true, true, true, true), None, 0, 1)
  }

  // ---------------------------------------------------------------------------
  // The generator
  // ---------------------------------------------------------------------------

  /** The squares the board loop has written after its first f passes. */
  predicate Filled(i: int, f: int) {
    i < f || 8 <= i < 8 + f || 48 <= i < 48 + f || 56 <= i < 56 + f
  }

  /** The board after the first f passes of the board loop. */
  function PartialLayout(rank: seq<PieceKind>, f: int): Board
    requires |rank| == 8
  {
    seq(64, i requires 0 <= i < 64 => if Filled(i, f) then LayoutSquare(rank, i) else None)
  }

  /** One pass of the board loop writes the four squares of file f. */
  lemma PartialLayoutStep(rank: seq<PieceKind>, f: int)
    requires |rank| == 8 && 0 <= f < 8
    ensures PartialLayout(rank, f)[f := Some(Piece(rank[f], White))][8 + f := Some(Piece(Pawn, White))]
      [48 + f := Some(Piece(Pawn, Black))][56 + f := Some(Piece(rank[f], Black))] == PartialLayout(rank, f + 1)
  {
    assert rank[56 + f - 56] == rank[f];
  }

  method GenerateChess960State(d: Draws) returns (st: GameState)
    requires ValidDraws(d)
    ensures st == Chess960State(d)
  {
    var pieces := FillBackRank(d);
    ghost var rank := Chess960Rank(d);
    assert forall j :: 0 <= j < 8 ==> pieces[j] == Some(rank[j]);
    var board := new Option<Piece>[64](_ => None);
    assert board[..] == PartialLayout(rank, 0);
    for f := 0 to 8
      invariant board[..] == PartialLayout(rank, f)
    {
      assert pieces[f].value == rank[f];
      ghost var before := board[..];
      board[f] := Some(Piece(pieces[f].value, White));
      board[8 + f] := Some(Piece(Pawn, White));
      board[48 + f] := Some(Piece(Pawn, Black));
      board[56 + f] := Some(Piece(pieces[f].value, Black));
      assert board[..] == before[f := Some(Piece(rank[f], White))][8 + f := Some(Piece(Pawn, White))]
        [48 + f := Some(Piece(Pawn, Black))][56 + f := Some(Piece(rank[f], Black))];
      PartialLayoutStep(rank, f);
    }
    assert PartialLayout(rank, 8) == LayoutBoard(rank);
    st := GameState(board[..], White, CastlingRights(true, true, true, true), None, 0, 1);
  }

  /** The bishops, the queen and the knights of generateChess960State, placed on an empty
      back rank. */
  method PlaceMinorPieces(pieces: array<Option<PieceKind>>, d: Draws)
    requires ValidDraws(d) && pieces[..] == Unfilled
    modifies pieces
    ensures pieces[..] == WithQueenAndKnights(d)
  {
    pieces[2 * d.light] := Some(Bishop);
    pieces[2 * d.dark + 1] := Some(Bishop);
    ghost var p1 := WithBishops(d.light, d.dark);
    assert pieces[..] == p1;
    var emptyAfterBishops := EmptySlots(pieces[..]);
    EmptySlotsMember(p1, d.queen);
    pieces[emptyAfterBishops[d.queen]] := Some(Queen);
    ghost var p2 := PlaceNth(p1, d.queen, Queen);
    assert pieces[..] == p2;
    var emptyAfterQueen := EmptySlots(pieces[..]);
    var knight1Pos := d.knight1;
    EmptySlotsMember(p2, knight1Pos);
    var knight1Idx := emptyAfterQueen[knight1Pos];
    pieces[knight1Idx] := Some(Knight);
    ghost var p3 := PlaceNth(p2, d.knight1, Knight);
    assert pieces[..] == p3;
    var emptyAfterKnight1 := RemoveAt(emptyAfterQueen, knight1Pos);
    EmptySlotsAfterPlace(p2, d.knight1, Knight);
    EmptySlotsMember(p3, d.knight2);
    pieces[emptyAfterKnight1[d.knight2]] := Some(Knight);
    assert pieces[..] == PlaceNth(p3, d.knight2, Knight);
  }

  /** The back-rank half of generateChess960State, on an eight-slot array. */
  method FillBackRank(d: Draws) returns (slots: Slots)
    requires ValidDraws(d)
    ensures slots == Chess960Slots(d)
  {
    var pieces := new Option<PieceKind>[8](_ => None);
    assert pieces[..] == Unfilled;
    PlaceMinorPieces(pieces, d);
    ghost var p4 := WithQueenAndKnights(d);
    var remaining := EmptySlots(pieces[..]);
    EmptySlotsMember(p4, 0);
    pieces[remaining[0]] := Some(Rook);
    ghost var p5 := PlaceNth(p4, 0, Rook);
    assert pieces[..] == p5;
    EmptySlotsAfterPlace(p4, 0, Rook);
    EmptySlotsMember(p5, 0);
    pieces[remaining[1]] := Some(King);
    ghost var p6 := PlaceNth(p5, 0, King);
    assert pieces[..] == p6;
    EmptySlotsAfterPlace(p5, 0, King);
    EmptySlotsMember(p6, 0);
    pieces[remaining[2]] := Some(Rook);
    assert pieces[..] == PlaceNth(p6, 0, Rook);
    slots := pieces[..];
  }

  // ---------------------------------------------------------------------------
  // What the generator promises
  // ---------------------------------------------------------------------------

  lemma {:induction false} KindsMultiset(p: Slots, k: PieceKind)
    requires forall i :: 0 <= i < |p| ==> p[i].Some?
    ensures multiset(Kinds(p))[k] == Count(p, Some(k))
    decreases |p|
  {
    if p != [] {
      var n := |p| - 1;
      KindsMultiset(p[..n], k);
      assert Kinds(p) == Kinds(p[..n]) + [p[n].value];
    }
  }

  /** A placement adds one slot of its kind and takes one empty slot. */
  lemma PlaceNthCount(p: Slots, n: nat, k: PieceKind, x: Option<PieceKind>)
    requires n < Count(p, None)
    ensures Count(PlaceNth(p, n, k), x) == Count(p, x) - (if x == None then 1 else 0) + (if x == Some(k) then 1 else 0)
  {
    PlaceCount(p, NthEmpty(p, n), k, x);
  }

  /** The drawn back rank holds the standard eight pieces: king, queen, two rooks, two bishops and
      two knights. */
  lemma Chess960Pieces(d: Draws)
    requires ValidDraws(d)
    ensures multiset(Chess960Rank(d)) == multiset(BackRank)
  {
    var p := Chess960Slots(d);
    forall k: PieceKind
      ensures multiset(Kinds(p))[k] == multiset(BackRank)[k]
    {
      SlotsCount(d, k);
      KindsMultiset(p, k);
      BackRankCount(k);
    }
  }

  /** After steps 1 to 3: three empty slots, two bishops, the queen and two knights. */
  lemma MinorCount(d: Draws, x: Option<PieceKind>)
    requires ValidDraws(d)
    ensures Count(WithQueenAndKnights(d), x) ==
      if x == None then 3 else if x == Some(Bishop) || x == Some(Knight) then 2 else if x == Some(Queen) then 1 else 0
  {
    var p1 := WithBishops(d.light, d.dark);
    var p2 := PlaceNth(p1, d.queen, Queen);
    var p3 := PlaceNth(p2, d.knight1, Knight);
    BishopsCount(d.light, d.dark, x);
    PlaceNthCount(p1, d.queen, Queen, x);
    PlaceNthCount(p2, d.knight1, Knight, x);
    PlaceNthCount(p3, d.knight2, Knight, x);
  }

  /** The finished back rank holds each kind as often as the standard one. */
  lemma SlotsCount(d: Draws, k: PieceKind)
    requires ValidDraws(d)
    ensures Count(Chess960Slots(d), Some(k)) == StandardCount(k)
  {
    var x := Some(k);
    var p4 := WithQueenAndKnights(d);
    var p5 := PlaceNth(p4, 0, Rook);
    var p6 := PlaceNth(p5, 0, King);
    MinorCount(d, x);
    PlaceNthCount(p4, 0, Rook, x);
    PlaceNthCount(p5, 0, King, x);
    PlaceNthCount(p6, 0, Rook, x);
  }

  /** After step 1: six empty slots and two bishops. */
  lemma BishopsCount(light: nat, dark: nat, x: Option<PieceKind>)
    requires light < 4 && dark < 4
    ensures Count(WithBishops(light, dark), x) == (if x == None then 6 else if x == Some(Bishop) then 2 else 0)
  {
    CountAll(Unfilled, None);
    CountZero(Unfilled, x);
    PlaceCount(Unfilled, 2 * light, Bishop, x);
    PlaceCount(Unfilled[2 * light := Some(Bishop)], 2 * dark + 1, Bishop, x);
  }

  /** How many pieces of each kind a back rank holds. */
  function StandardCount(k: PieceKind): nat {
    match k
      case King => 1
      case Queen => 1
      case Pawn => 0
      case _ => 2
  }

  lemma BackRankCount(k: PieceKind)
    ensures multiset(BackRank)[k] == StandardCount(k)
  {
    var m := multiset{Rook, Knight, Bishop, Queen, King, Bishop, Knight, Rook};
    assert multiset(BackRank) == m;
  }

  /** A placement of a kind other than k neither adds nor removes a slot holding k. */
  lemma PlaceNthKeepsKind(p: Slots, n: nat, k: PieceKind, other: PieceKind)
    requires n < Count(p, None) && k != other
    ensures forall i :: 0 <= i < |p| ==> (PlaceNth(p, n, other)[i] == Some(k) <==> p[i] == Some(k))
  {
    PlaceNthSlots(p, n, other);
  }

  /** The two bishops stand on files of opposite parity, that is on squares of opposite colour. */
  lemma Chess960Bishops(d: Draws)
    requires ValidDraws(d)
    ensures var rank := Chess960Rank(d);
      forall i, j :: 0 <= i < j < 8 && rank[i] == Bishop && rank[j] == Bishop ==> (j - i) % 2 == 1
  {
    BishopsStay(d);
    var rank := Chess960Rank(d);
    assert forall i :: 0 <= i < 8 ==> (rank[i] == Bishop <==> i == 2 * d.light || i == 2 * d.dark + 1);
    OppositeParity(rank, d.light, d.dark);
  }

  /** The later placements leave the bishops of step 1 where they are. */
  lemma BishopsStay(d: Draws)
    requires ValidDraws(d)
    ensures var p := Chess960Slots(d);
      forall i :: 0 <= i < 8 ==> (p[i] == Some(Bishop) <==> i == 2 * d.light || i == 2 * d.dark + 1)
  {
    BishopsStayMiddle(d);
    var p4 := WithQueenAndKnights(d);
    var p5 := PlaceNth(p4, 0, Rook);
    PlaceNthKeepsKind(p4, 0, Bishop, Rook);
    var p6 := PlaceNth(p5, 0, King);
    PlaceNthKeepsKind(p5, 0, Bishop, King);
    PlaceNthKeepsKind(p6, 0, Bishop, Rook);
  }

  lemma BishopsStayMiddle(d: Draws)
    requires ValidDraws(d)
    ensures var p := WithQueenAndKnights(d);
      forall i :: 0 <= i < 8 ==> (p[i] == Some(Bishop) <==> i == 2 * d.light || i == 2 * d.dark + 1)
  {
    var p1 := WithBishops(d.light, d.dark);
    assert forall i :: 0 <= i < 8 ==> (p1[i] == Some(Bishop) <==> i == 2 * d.light || i == 2 * d.dark + 1);
    var p2 := PlaceNth(p1, d.queen, Queen);
    PlaceNthKeepsKind(p1, d.queen, Bishop, Queen);
    var p3 := PlaceNth(p2, d.knight1, Knight);
    PlaceNthKeepsKind(p2, d.knight1, Bishop, Knight);
    PlaceNthKeepsKind(p3, d.knight2, Bishop, Knight);
  }

  /** Bishops on exactly an even and an odd file are a whole number of files plus one apart. */
  lemma OppositeParity(rank: seq<PieceKind>, light: int, dark: int)
    requires forall i :: 0 <= i < |rank| ==> (rank[i] == Bishop <==> i == 2 * light || i == 2 * dark + 1)
    ensures forall i, j :: 0 <= i < j < |rank| && rank[i] == Bishop && rank[j] == Bishop ==> (j - i) % 2 == 1
  {
    forall i, j | 0 <= i < j < |rank| && rank[i] == Bishop && rank[j] == Bishop
      ensures (j - i) % 2 == 1
    {
      if i == 2 * light {
        OddDifference(dark - light);
      } else {
        OddDifference(light - dark - 1);
      }
    }
  }

  lemma OddDifference(m: int)
    ensures (2 * m + 1) % 2 == 1
  {
  }

  /** The king stands between the two rooks. */
  lemma Chess960KingBetweenRooks(d: Draws)
    requires ValidDraws(d)
    ensures var rank := Chess960Rank(d);
      exists r1, k, r2 :: 0 <= r1 < k < r2 < 8 && rank[r1] == Rook && rank[k] == King && rank[r2] == Rook
  {
    var p4 := WithQueenAndKnights(d);
    var e := EmptySlots(p4);
    var p5 := PlaceNth(p4, 0, Rook);
    PlaceNthSlots(p4, 0, Rook);
    EmptySlotsAfterPlace(p4, 0, Rook);
    var p6 := PlaceNth(p5, 0, King);
    PlaceNthSlots(p5, 0, King);
    EmptySlotsAfterPlace(p5, 0, King);
    var p := PlaceNth(p6, 0, Rook);
    PlaceNthSlots(p6, 0, Rook);
    EmptySlotsAscending(p4, 0, 1);
    EmptySlotsAscending(p4, 1, 2);
    assert p == Chess960Slots(d);
    assert p[e[0]] == Some(Rook) && p[e[1]] == Some(King) && p[e[2]] == Some(Rook);
    var rank := Chess960Rank(d);
    assert rank[e[0]] == Rook && rank[e[1]] == King && rank[e[2]] == Rook;
  }

  /** Every layout puts the given rank on White's first rank and the same kinds, file by file, on
      Black's last rank, with the pawns in front and ranks 3 to 6 empty. */
  lemma LayoutMirrored(rank: seq<PieceKind>)
    requires |rank| == 8
    ensures var b := LayoutBoard(rank);
      (forall f :: 0 <= f < 8 ==> b[f] == Some(Piece(rank[f], White)) && b[56 + f] == Some(Piece(rank[f], Black))) &&
      (forall i :: 8 <= i < 16 ==> b[i] == Some(Piece(Pawn, White))) &&
      (forall i :: 48 <= i < 56 ==> b[i] == Some(Piece(Pawn, Black))) &&
      (forall i :: 16 <= i < 48 ==> b[i] == None)
  {
  }

  /** reset(true) has the drawn rank on both sides and the standard side-to-move, rights and clocks. */
  lemma Chess960Layout(d: Draws)
    requires ValidDraws(d)
    ensures var st, rank := Chess960State(d), Chess960Rank(d);
      (forall f :: 0 <= f < 8 ==> st.board[f] == Some(Piece(rank[f], White)) && st.board[56 + f] == Some(Piece(rank[f], Black))) &&
      st.activeColor == White && st.castling == CastlingRights(true, true, true, true) &&
      st.enPassant == None && st.halfmove == 0 && st.fullmove == 1
  {
    LayoutMirrored(Chess960Rank(d));
  }
}
