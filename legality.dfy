/**
 * Legal move filtering and the check, checkmate and stalemate predicates
 * (src/chess/rules.ts, getLegalMoves, isInCheck, hasAnyLegalMove, isCheckmate, isStalemate).
 */
module Legality {
  import opened Wrappers
  import opened Types
  import opened Squares
  import opened Attacks
  import opened Generators

  /** Reading a board copy: an index off the board reads as no piece. */
  function Get(b: Board, i: int): Option<Piece> {
    if 0 <= i < 64 then b[i] else None
  }

  /** Writing a board copy: a write off the board is never read back by the king search, so it is
      no change to the 64 squares. */
  function Set(b: Board, i: int, v: Option<Piece>): Board {
    if 0 <= i < 64 then b[i := v] else b
  }

  // ---------------------------------------------------------------------------
  // The simulated move of getLegalMoves
  // ---------------------------------------------------------------------------

  /** Step 1: the piece on `from` goes to `to`, and `from` becomes empty. */
  function MovedBoard(b: Board, from: Square, to: Square): Board {
    Set(Set(b, to, b[from]), from, None)
  }

  /** The square of the pawn an en-passant capture onto `to` removes. */
  function EnPassantVictim(color: Color, to: Square): int {
    to + (if color == White then -8 else 8)
  }

  /** Step 2: a pawn moving onto the en-passant square removes the pawn behind it. */
  function AfterEnPassant(st: GameState, piece: Piece, to: Square, b: Board): Board {
    if piece.kind == Pawn && st.enPassant == Some(to) then Set(b, EnPassantVictim(piece.color, to), None) else b
  }

  /** Step 3: a king moving two files brings the rook over: from to+1 to to-1 on the kingside,
      from to-2 to to+1 on the queenside. */
  function AfterCastlingRook(piece: Piece, from: Square, to: Square, b: Board): Board {
    var fileDiff := FileOf(to) - FileOf(from);
    if piece.kind == King && fileDiff == 2 then Set(Set(b, to - 1, Get(b, to + 1)), to + 1, None)
    else if piece.kind == King && fileDiff == -2 then Set(Set(b, to + 1, Get(b, to - 2)), to - 2, None)
    else b
  }

  /** The board copy getLegalMoves checks for the move from `from` to `to`. */
  function SimulatedBoard(st: GameState, from: Square, to: Square): Board
    requires st.board[from].Some?
  {
    var piece := st.board[from].value;
    AfterCastlingRook(piece, from, to, AfterEnPassant(st, piece, to, MovedBoard(st.board, from, to)))
  }

  // ---------------------------------------------------------------------------
  // King search
  // ---------------------------------------------------------------------------

  /** The first square at index i or later holding the king of `color`. */
  function KingFrom(b: Board, color: Color, i: nat): (k: Option<Square>)
    requires i <= 64
    ensures k.Some? ==> i <= k.value && b[k.value] == Some(Piece(King, color))
    ensures k.Some? ==> forall j :: i <= j < k.value ==> b[j] != Some(Piece(King, color))
    ensures k.None? ==> forall j :: i <= j < 64 ==> b[j] != Some(Piece(King, color))
    decreases 64 - i
  {
    if i == 64 then None
    else if b[i] == Some(Piece(King, color)) then Some(i)
    else KingFrom(b, color, i + 1)
  }

  /** The lowest-numbered square holding the king of `color`, if any. */
  function KingSquare(b: Board, color: Color): Option<Square> {
    KingFrom(b, color, 0)
  }

  /** The king-search loop of getLegalMoves and isInCheck over a 64-slot array; -1 when there is none. */
  method FindKing(a: array<Option<Piece>>, color: Color) returns (k: int)
    requires a.Length == 64
    ensures KingSquare(a[..], color).Some? ==> k == KingSquare(a[..], color).value
    ensures KingSquare(a[..], color).None? ==> k == -1
  {
    ghost var b: Board := a[..];
    for i := 0 to 64
      invariant KingFrom(b, color, i) == KingSquare(b, color)
    {
      var p := a[i];
      if p.Some? && p.value.kind == King && p.value.color == color {
        return i;
      }
    }
    return -1;
  }

  // ---------------------------------------------------------------------------
  // getLegalMoves
  // ---------------------------------------------------------------------------

  /** After moving from `from` to `to`, the mover still has a king and it is not attacked. */
  predicate SafeAfter(st: GameState, from: Square, to: Square)
    requires st.board[from].Some?
  {
    var color := st.board[from].value.color;
    var b := SimulatedBoard(st, from, to);
    match KingSquare(b, color)
      case None => false
      case Some(k) => !Attacked(b, k, Opponent(color))
  }

  /** The targets of `ts` that pass the safety test, in order. */
  function SafeTargets(st: GameState, from: Square, ts: seq<Square>): seq<Square>
    requires st.board[from].Some?
    decreases |ts|
  {
    if ts == [] then []
    else SafeTargets(st, from, ts[..|ts| - 1]) + (if SafeAfter(st, from, ts[|ts| - 1]) then [ts[|ts| - 1]] else [])
  }

  /** getLegalMoves: nothing from an empty square, otherwise the pseudo-legal targets that leave the
      mover's king safe. */
  function LegalTargets(st: GameState, from: Square): seq<Square> {
    if st.board[from].None? then [] else SafeTargets(st, from, PseudoTargets(st, from))
  }

  /** Step 2 of the simulation on the array copy. */
  method ClearEnPassantVictim(copy: array<Option<Piece>>, st: GameState, piece: Piece, to: Square)
    requires copy.Length == 64
    modifies copy
    ensures copy[..] == AfterEnPassant(st, piece, to, old(copy[..]))
  {
    if piece.kind == Pawn && st.enPassant == Some(to) {
      var capturedPawnIndex := to + (if piece.color == White then -8 else 8);
      if 0 <= capturedPawnIndex < 64 {
        copy[capturedPawnIndex] := None;
      }
    }
  }

  /** Step 3 of the simulation on the array copy. */
  method MoveCastlingRook(copy: array<Option<Piece>>, piece: Piece, from: Square, to: Square)
    requires copy.Length == 64
    modifies copy
    ensures copy[..] == AfterCastlingRook(piece, from, to, old(copy[..]))
  {
    if piece.kind == King {
      var fileDiff := FileOf(to) - FileOf(from);
      if fileDiff == 2 {
        var rook := if to + 1 < 64 then copy[to + 1] else None;
        if to - 1 >= 0 {
          copy[to - 1] := rook;
        }
        if to + 1 < 64 {
          copy[to + 1] := None;
        }
      } else if fileDiff == -2 {
        var rook := if to - 2 >= 0 then copy[to - 2] else None;
        if to + 1 < 64 {
          copy[to + 1] := rook;
        }
        if to - 2 >= 0 {
          copy[to - 2] := None;
        }
      }
    }
  }

  /** The body of getLegalMoves' filter: simulate the move on a fresh copy of the board, find the
      mover's king and ask whether the opponent attacks it. */
  method SafeMove(st: GameState, from: Square, to: Square) returns (safe: bool)
    requires st.board[from].Some?
    ensures safe == SafeAfter(st, from, to)
  {
    var piece := st.board[from].value;
    var color := piece.color;
    var copy := new Option<Piece>[64](i requires 0 <= i < 64 => st.board[i]);
    assert copy[..] == st.board;

    copy[to] := copy[from];
    copy[from] := None;
    assert copy[..] == MovedBoard(st.board, from, to);

    ClearEnPassantVictim(copy, st, piece, to);
    MoveCastlingRook(copy, piece, from, to);
    assert copy[..] == SimulatedBoard(st, from, to);

    var kingIndex := FindKing(copy, color);
    if kingIndex < 0 {
      return false;
    }
    var attacked := IsSquareAttacked(copy[..], kingIndex, Opponent(color));
    return !attacked;
  }

  /** getLegalMoves. */
  method GetLegalMoves(st: GameState, from: Square) returns (moves: seq<Square>)
    ensures moves == LegalTargets(st, from)
  {
    if st.board[from].None? {
      return [];
    }
    var pseudoMoves := PseudoLegalMoves(st, from);
    moves := [];
    for j := 0 to |pseudoMoves|
      invariant moves == SafeTargets(st, from, pseudoMoves[..j])
    {
      assert pseudoMoves[..j + 1][..j] == pseudoMoves[..j];
      assert SafeTargets(st, from, pseudoMoves[..j + 1])
        == SafeTargets(st, from, pseudoMoves[..j]) + (if SafeAfter(st, from, pseudoMoves[j]) then [pseudoMoves[j]] else []);
      var safe := SafeMove(st, from, pseudoMoves[j]);
      if safe {
        moves := moves + [pseudoMoves[j]];
      }
    }
    assert pseudoMoves[..|pseudoMoves|] == pseudoMoves;
  }

  // ---------------------------------------------------------------------------
  // Check, checkmate, stalemate
  // ---------------------------------------------------------------------------

  /** isInCheck: the first king of `color` on the board is attacked; no king means no check. */
  predicate InCheck(st: GameState, color: Color) {
    match KingSquare(st.board, color)
      case None => false
      case Some(k) => Attacked(st.board, k, Opponent(color))
  }

  /** Square i holds a piece of `color` with at least one legal move. */
  predicate CanMoveFrom(st: GameState, color: Color, i: Square) {
    st.board[i].Some? && st.board[i].value.color == color && LegalTargets(st, i) != []
  }

  /** Some square below n holds a piece of `color` with a legal move. */
  predicate MovableBelow(st: GameState, color: Color, n: nat)
    requires n <= 64
  {
    n > 0 && (MovableBelow(st, color, n - 1) || CanMoveFrom(st, color, n - 1))
  }

  /** hasAnyLegalMove. */
  predicate HasLegalMove(st: GameState, color: Color) {
    MovableBelow(st, color, 64)
  }

  /** isCheckmate. */
  predicate Checkmated(st: GameState, color: Color) {
    InCheck(st, color) && !HasLegalMove(st, color)
  }

  /** isStalemate. */
  predicate Stalemated(st: GameState, color: Color) {
    !InCheck(st, color) && !HasLegalMove(st, color)
  }

  method IsInCheck(st: GameState, color: Color) returns (check: bool)
    ensures check == InCheck(st, color)
  {
    var board := st.board;
    for i := 0 to 64
      invariant KingFrom(board, color, i) == KingSquare(board, color)
    {
      var p := board[i];
      if p.Some? && p.value.kind == King && p.value.color == color {
        check := IsSquareAttacked(board, i, Opponent(color));
        return;
      }
    }
    return false;
  }

  method HasAnyLegalMove(st: GameState, color: Color) returns (any: bool)
    ensures any == HasLegalMove(st, color)
  {
    var board := st.board;
    for i := 0 to 64
      invariant !MovableBelow(st, color, i)
    {
      var p := board[i];
      if p.Some? && p.value.color == color {
        var moves := GetLegalMoves(st, i);
        if |moves| > 0 {
          assert CanMoveFrom(st, color, i);
          MovableBelowExtends(st, color, i + 1, 64);
          return true;
        }
      }
    }
    return false;
  }

  method IsCheckmate(st: GameState, color: Color) returns (mate: bool)
    ensures mate == Checkmated(st, color)
  {
    var check := IsInCheck(st, color);
    if !check {
      return false;
    }
    var any := HasAnyLegalMove(st, color);
    return !any;
  }

  method IsStalemate(st: GameState, color: Color) returns (stale: bool)
    ensures stale == Stalemated(st, color)
  {
    var check := IsInCheck(st, color);
    if check {
      return false;
    }
    var any := HasAnyLegalMove(st, color);
    return !any;
  }

  // ---------------------------------------------------------------------------
  // Properties
  // ---------------------------------------------------------------------------

  /** The safety filter keeps exactly the targets that pass the test. */
  lemma {:induction false} SafeTargetsMembers(st: GameState, from: Square, ts: seq<Square>, t: Square)
    requires st.board[from].Some?
    ensures t in SafeTargets(st, from, ts) <==> t in ts && SafeAfter(st, from, t)
    decreases |ts|
  {
    if ts != [] {
      var n := |ts| - 1;
      SafeTargetsMembers(st, from, ts[..n], t);
      assert ts == ts[..n] + [ts[n]];
    }
  }

  /** A legal target is a pseudo-legal target after which the mover's own king exists and is not
      attacked on the simulated board; and every such target is legal. */
  lemma LegalTargetsMembers(st: GameState, from: Square, t: Square)
    requires st.board[from].Some?
    ensures var color := st.board[from].value.color;
      var b := SimulatedBoard(st, from, t);
      t in LegalTargets(st, from) <==>
        t in PseudoTargets(st, from) && KingSquare(b, color).Some? && !Attacked(b, KingSquare(b, color).value, Opponent(color))
  {
    SafeTargetsMembers(st, from, PseudoTargets(st, from), t);
  }

  /** A legal target is never occupied by the mover's own piece, except the en-passant square
      offered to a pawn. */
  lemma LegalTargetsEnterable(st: GameState, from: Square, t: Square)
    requires st.board[from].Some? && t in LegalTargets(st, from)
    ensures var p := st.board[from].value;
      Enterable(st.board, t, p.color) || (p.kind == Pawn && st.enPassant == Some(t))
  {
    LegalTargetsMembers(st, from, t);
    PseudoTargetsEnterable(st, from, t);
  }

  /** A movable piece below n is below every larger bound. */
  lemma {:induction false} MovableBelowExtends(st: GameState, color: Color, n: nat, m: nat)
    requires n <= m <= 64 && MovableBelow(st, color, n)
    ensures MovableBelow(st, color, m)
    decreases m - n
  {
    if n < m {
      MovableBelowExtends(st, color, n, m - 1);
    }
  }

  /** The side to move has a legal move exactly when one of its pieces has a legal target. */
  lemma {:induction false} MovableBelowWitness(st: GameState, color: Color, n: nat)
    requires n <= 64
    ensures MovableBelow(st, color, n) <==> exists i: Square :: i < n && CanMoveFrom(st, color, i)
  {
    if n > 0 {
      MovableBelowWitness(st, color, n - 1);
      if MovableBelow(st, color, n) {
        if MovableBelow(st, color, n - 1) {
          var i: Square :| i < n - 1 && CanMoveFrom(st, color, i);
          assert i < n && CanMoveFrom(st, color, i);
        } else {
          assert n - 1 < n && CanMoveFrom(st, color, n - 1);
        }
      }
      if exists i: Square :: i < n && CanMoveFrom(st, color, i) {
        var i: Square :| i < n && CanMoveFrom(st, color, i);
        if i < n - 1 {
          assert MovableBelow(st, color, n - 1);
        }
      }
    }
  }

  /** hasAnyLegalMove holds exactly when some piece of `color` has a non-empty list of legal targets. */
  lemma HasLegalMoveWitness(st: GameState, color: Color)
    ensures HasLegalMove(st, color) <==>
      exists i: Square :: CanMoveFrom(st, color, i)
  {
    MovableBelowWitness(st, color, 64);
    if exists i: Square :: CanMoveFrom(st, color, i) {
      var i: Square :| CanMoveFrom(st, color, i);
      assert i < 64 && CanMoveFrom(st, color, i);
    }
  }

  /** Checkmate and stalemate exclude each other, and checkmate means check. */
  lemma MateAndStalemateExclusive(st: GameState, color: Color)
    ensures !(Checkmated(st, color) && Stalemated(st, color))
    ensures Checkmated(st, color) ==> InCheck(st, color)
  {
  }
}
