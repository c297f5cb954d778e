/**
 * Playing a move on a game state (src/chess/engine.ts, applyMoveToState): the board after the
 * move, castling rights, en-passant square, clocks and side to move.
 */
module Transition {
  import opened Wrappers
  import opened Types
  import opened Squares
  import opened Generators
  import opened Legality

  /** What applyMoveToState relies on: a piece stands on `from`, and a pawn moving two ranks moves
      towards the opponent, so that the square it passes is on the board. Every pseudo-legal move
      satisfies this (PseudoTargetsApplicable). */
  predicate Applicable(st: GameState, from: Square, to: Square) {
    st.board[from].Some? &&
    (st.board[from].value.kind == Pawn && (to - from == 16 || from - to == 16) ==>
      to - from == 16 * Dir(st.board[from].value.color))
  }

  /** The piece that stands on `to` after the move: the promotion piece when one is given, whatever
      the moving piece is, otherwise the moving piece. */
  function Placed(piece: Piece, promo: Option<PieceKind>): Piece {
    if promo.Some? then Piece(promo.value, piece.color) else piece
  }

  /** The king's two-square move brings the rook from from+3 to from+1 (kingside) or from from-4 to
      from-1 (queenside). */
  function CastledRook(piece: Piece, from: Square, to: Square, b: Board): Board {
    if piece.kind == King && to - from == 2 then Set(Set(b, from + 1, Get(b, from + 3)), from + 3, None)
    else if piece.kind == King && to - from == -2 then Set(Set(b, from - 1, Get(b, from - 4)), from - 4, None)
    else b
  }

  /** The board after the move: the en-passant victim removed, the piece placed, `from` emptied,
      the castling rook moved. */
  function BoardAfter(st: GameState, from: Square, to: Square, promo: Option<PieceKind>): Board
    requires st.board[from].Some?
  {
    var piece := st.board[from].value;
    var b1 := if piece.kind == Pawn && st.enPassant == Some(to) then Set(st.board, EnPassantVictim(piece.color, to), None)
              else st.board;
    CastledRook(piece, from, to, b1[to := Some(Placed(piece, promo))][from := None])
  }

  /** The castling right whose rook starts on corner `sq` is lost. */
  function ClearCorner(c: CastlingRights, sq: int): CastlingRights {
    if sq == 0 then c.(Q := false)
    else if sq == 7 then c.(K := false)
    else if sq == 56 then c.(q := false)
    else if sq == 63 then c.(k := false)
    else c
  }

  /** Castling rights after the move: a king move loses both rights of its color, a rook leaving a
      corner or a rook captured on a corner loses that corner's right. */
  function RightsAfter(st: GameState, from: Square, to: Square): CastlingRights
    requires st.board[from].Some?
  {
    var piece := st.board[from].value;
    var c1 := if piece.kind != King then st.castling
              else if piece.color == White then st.castling.(K := false, Q := false)
              else st.castling.(k := false, q := false);
    var c2 := if piece.kind == Rook then ClearCorner(c1, from) else c1;
    if st.board[to].Some? && st.board[to].value.kind == Rook then ClearCorner(c2, to) else c2
  }

  /** The state applyMoveToState returns. */
  function NextState(st: GameState, from: Square, to: Square, promo: Option<PieceKind>): GameState
    requires Applicable(st, from, to)
  {
    var piece := st.board[from].value;
    var doubleStep := piece.kind == Pawn && (to - from == 16 || from - to == 16);
    GameState(
      BoardAfter(st, from, to, promo),
      Opponent(st.activeColor),
      RightsAfter(st, from, to),
      if doubleStep then Some(from + 8 * Dir(piece.color)) else None,
      if piece.kind == Pawn || st.board[to].Some? then 0 else st.halfmove + 1,
      if st.activeColor == Black then st.fullmove + 1 else st.fullmove)
  }

  // ---------------------------------------------------------------------------
  // applyMoveToState on a copied board
  // ---------------------------------------------------------------------------

  method MoveCastledRook(board: array<Option<Piece>>, piece: Piece, from: Square, to: Square)
    requires board.Length == 64
    modifies board
    ensures board[..] == CastledRook(piece, from, to, old(board[..]))
  {
    if piece.kind == King {
      var diff := to - from;
      if diff == 2 || diff == -2 {
        var rookFrom := if diff == 2 then from + 3 else from - 4;
        var rookTo := if diff == 2 then from + 1 else from - 1;
        var rook := if 0 <= rookFrom < 64 then board[rookFrom] else None;
        if 0 <= rookTo < 64 {
          board[rookTo] := rook;
        }
        if 0 <= rookFrom < 64 {
          board[rookFrom] := None;
        }
      }
    }
  }

  /** The castling-rights part of applyMoveToState. */
  method UpdateRights(st: GameState, from: Square, to: Square) returns (rights: CastlingRights)
    requires st.board[from].Some?
    ensures rights == RightsAfter(st, from, to)
  {
    var piece := st.board[from].value;
    var captured := st.board[to];
    rights := st.castling;
    if piece.kind == King {
      if piece.color == White {
        rights := rights.(K := false, Q := false);
      } else {
        rights := rights.(k := false, q := false);
      }
    }
    if piece.kind == Rook {
      rights := ClearCorner(rights, from);
    }
    if captured.Some? && captured.value.kind == Rook {
      rights := ClearCorner(rights, to);
    }

  }

  method ApplyMoveToState(st: GameState, from: Square, to: Square, promo: Option<PieceKind>) returns (s: GameState)
    requires Applicable(st, from, to)
    ensures s == NextState(st, from, to, promo)
  {
    var board := new Option<Piece>[64](i requires 0 <= i < 64 => st.board[i]);
    var piece := st.board[from].value;
    var captured := st.board[to];
    ghost var b1 := if piece.kind == Pawn && st.enPassant == Some(to) then Set(st.board, EnPassantVictim(piece.color, to), None)
                    else st.board;
    assert board[..] == st.board;

    if piece.kind == Pawn && st.enPassant == Some(to) {
      var capturedPawnIdx := if piece.color == White then to - 8 else to + 8;
      if 0 <= capturedPawnIdx < 64 {
        board[capturedPawnIdx] := None;
      }
    }
    assert board[..] == b1;
    board[to] := Some(if promo.Some? then Piece(promo.value, piece.color) else piece);
    board[from] := None;
    assert board[..] == b1[to := Some(Placed(piece, promo))][from := None];
    MoveCastledRook(board, piece, from, to);
    var after := board[..];
    assert after == BoardAfter(st, from, to, promo);

    var rights := UpdateRights(st, from, to);

    var enPassant: Option<Square> := None;
    if piece.kind == Pawn && (to - from == 16 || from - to == 16) {
      enPassant := Some(if piece.color == White then from + 8 else from - 8);
    }

    var halfmove := if piece.kind == Pawn || captured.Some? then 0 else st.halfmove + 1;
    var fullmove := st.fullmove;
    if st.activeColor == Black {
      fullmove := st.fullmove + 1;
    }
    s := GameState(after, if st.activeColor == White then Black else White, rights, enPassant, halfmove, fullmove);
  }

  // ---------------------------------------------------------------------------
  // Properties
  // ---------------------------------------------------------------------------

  /** Every pseudo-legal move can be applied. */
  lemma PseudoTargetsApplicable(st: GameState, from: Square, to: Square)
    requires st.board[from].Some? && to in PseudoTargets(st, from)
    ensures Applicable(st, from, to)
  {
    var p := st.board[from].value;
    if p.kind == Pawn {
      PawnTargetsMembers(st, from, p.color, to);
    }
  }

  /** The squares a move may change: `from`, `to`, the en-passant victim and the castling rook's
      two squares. */
  predicate Touched(st: GameState, from: Square, to: Square, i: Square)
    requires st.board[from].Some?
  {
    var piece := st.board[from].value;
    i == from || i == to ||
    (piece.kind == Pawn && st.enPassant == Some(to) && i == EnPassantVictim(piece.color, to)) ||
    (piece.kind == King && to - from == 2 && (i == from + 1 || i == from + 3)) ||
    (piece.kind == King && to - from == -2 && (i == from - 1 || i == from - 4))
  }

  /** The moved (or promoted) piece stands on `to`, `from` is empty, and squares the move does not
      touch keep their contents. */
  lemma BoardAfterMove(st: GameState, from: Square, to: Square, promo: Option<PieceKind>)
    requires Applicable(st, from, to) && from != to
    ensures var s := NextState(st, from, to, promo);
      s.board[to] == Some(Placed(st.board[from].value, promo)) &&
      s.board[from].None? &&
      forall i: Square :: !Touched(st, from, to, i) ==> s.board[i] == st.board[i]
  {
  }

  /** Castling moves the rook: on the kingside from three files right of the king to the square
      the king crossed, on the queenside from four files left of it. */
  lemma CastlingMovesRook(st: GameState, from: Square, to: Square, promo: Option<PieceKind>)
    requires Applicable(st, from, to) && st.board[from].value.kind == King
    ensures var s := NextState(st, from, to, promo);
      (to - from == 2 && from + 3 < 64 ==> s.board[from + 1] == st.board[from + 3] && s.board[from + 3].None?) &&
      (from - to == 2 && from - 4 >= 0 ==> s.board[from - 1] == st.board[from - 4] && s.board[from - 4].None?)
  {
  }

  /** The pawn captured en passant leaves the board. */
  lemma EnPassantRemovesVictim(st: GameState, from: Square, to: Square, promo: Option<PieceKind>)
    requires Applicable(st, from, to) && st.board[from].value.kind == Pawn && st.enPassant == Some(to)
    requires 0 <= EnPassantVictim(st.board[from].value.color, to) < 64
    ensures NextState(st, from, to, promo).board[EnPassantVictim(st.board[from].value.color, to)].None?
  {
  }

  /** Castling rights are only ever lost. A right survives exactly when it was held, the king of
      its color did not move, no rook left its corner and no rook was captured on it. */
  lemma RightsAfterMove(st: GameState, from: Square, to: Square, promo: Option<PieceKind>)
    requires Applicable(st, from, to)
    ensures var c, c' := st.castling, NextState(st, from, to, promo).castling;
      var p := st.board[from].value;
      var rookTaken := st.board[to].Some? && st.board[to].value.kind == Rook;
      (c'.K ==> c.K) && (c'.Q ==> c.Q) && (c'.k ==> c.k) && (c'.q ==> c.q) &&
      (c'.K <==> c.K && p != Piece(King, White) && !(p.kind == Rook && from == 7) && !(rookTaken && to == 7)) &&
      (c'.Q <==> c.Q && p != Piece(King, White) && !(p.kind == Rook && from == 0) && !(rookTaken && to == 0)) &&
      (c'.k <==> c.k && p != Piece(King, Black) && !(p.kind == Rook && from == 63) && !(rookTaken && to == 63)) &&
      (c'.q <==> c.q && p != Piece(King, Black) && !(p.kind == Rook && from == 56) && !(rookTaken && to == 56))
  {
    assert NextState(st, from, to, promo).castling == RightsAfter(st, from, to);
    RightsAfterFlags(st, from, to);
  }

  /** The rights RightsAfter keeps, flag by flag. */
  lemma RightsAfterFlags(st: GameState, from: Square, to: Square)
    requires st.board[from].Some?
    ensures var c, c' := st.castling, RightsAfter(st, from, to);
      var p := st.board[from].value;
      var rookTaken := st.board[to].Some? && st.board[to].value.kind == Rook;
      (c'.K ==> c.K) && (c'.Q ==> c.Q) && (c'.k ==> c.k) && (c'.q ==> c.q) &&
      (c'.K <==> c.K && p != Piece(King, White) && !(p.kind == Rook && from == 7) && !(rookTaken && to == 7)) &&
      (c'.Q <==> c.Q && p != Piece(King, White) && !(p.kind == Rook && from == 0) && !(rookTaken && to == 0)) &&
      (c'.k <==> c.k && p != Piece(King, Black) && !(p.kind == Rook && from == 63) && !(rookTaken && to == 63)) &&
      (c'.q <==> c.q && p != Piece(King, Black) && !(p.kind == Rook && from == 56) && !(rookTaken && to == 56))
  {
    var piece := st.board[from].value;
    var c1 := if piece.kind != King then st.castling
              else if piece.color == White then st.castling.(K := false, Q := false)
              else st.castling.(k := false, q := false);
    var c2 := if piece.kind == Rook then ClearCorner(c1, from) else c1;
    ClearCornerFlags(c1, from);
    ClearCornerFlags(c2, to);
  }

  /** ClearCorner drops exactly the right of the corner it is given. */
  lemma ClearCornerFlags(c: CastlingRights, sq: int)
    ensures var c' := ClearCorner(c, sq);
      (c'.K <==> c.K && sq != 7) && (c'.Q <==> c.Q && sq != 0) &&
      (c'.k <==> c.k && sq != 63) && (c'.q <==> c.q && sq != 56)
  {
  }

  /** The side to move alternates; the halfmove clock restarts exactly on a pawn move or a capture
      onto an occupied square, and otherwise counts up; the move number grows after Black moves. */
  lemma CountersAfterMove(st: GameState, from: Square, to: Square, promo: Option<PieceKind>)
    requires Applicable(st, from, to)
    ensures var s := NextState(st, from, to, promo);
      s.activeColor != st.activeColor &&
      (s.halfmove == 0 <==> st.board[from].value.kind == Pawn || st.board[to].Some?) &&
      (s.halfmove != 0 ==> s.halfmove == st.halfmove + 1) &&
      (s.fullmove == st.fullmove + 1 <==> st.activeColor == Black) &&
      (s.fullmove != st.fullmove + 1 ==> s.fullmove == st.fullmove)
  {
  }

  /** After one move by each side, starting with White, it is White's turn again and the move
      number has grown by exactly one. */
  lemma TwoPlies(st: GameState, from1: Square, to1: Square, promo1: Option<PieceKind>,
                 from2: Square, to2: Square, promo2: Option<PieceKind>)
    requires st.activeColor == White && Applicable(st, from1, to1)
    requires Applicable(NextState(st, from1, to1, promo1), from2, to2)
    ensures var s2 := NextState(NextState(st, from1, to1, promo1), from2, to2, promo2);
      s2.activeColor == White && s2.fullmove == st.fullmove + 1
  {
    CountersAfterMove(st, from1, to1, promo1);
    CountersAfterMove(NextState(st, from1, to1, promo1), from2, to2, promo2);
  }

  /** An en-passant square is offered exactly after a pawn's two-square move, and it is the square
      the pawn passed over. */
  lemma EnPassantAfterMove(st: GameState, from: Square, to: Square, promo: Option<PieceKind>)
    requires Applicable(st, from, to)
    ensures var s := NextState(st, from, to, promo);
      var p := st.board[from].value;
      (s.enPassant.Some? <==> p.kind == Pawn && (to - from == 16 || from - to == 16)) &&
      (s.enPassant.Some? ==> 2 * s.enPassant.value == from + to && s.enPassant.value - from == 8 * Dir(p.color))
  {
  }

  /** The king moves two files exactly when it moves two squares along the rank. */
  predicate KingJumpAligned(st: GameState, from: Square, to: Square)
    requires st.board[from].Some?
  {
    st.board[from].value.kind == King ==>
      (FileOf(to) - FileOf(from) == 2 <==> to - from == 2) && (FileOf(to) - FileOf(from) == -2 <==> from - to == 2)
  }

  /** The simulation and the move agree off `to` whenever the king's two-file moves are its
      two-square moves. */
  lemma SimulationAgrees(st: GameState, from: Square, to: Square, promo: Option<PieceKind>, i: Square)
    requires Applicable(st, from, to) && from != to && KingJumpAligned(st, from, to) && i != to
    ensures SimulatedBoard(st, from, to)[i] == NextState(st, from, to, promo).board[i]
  {
  }

  /** getLegalMoves' simulation of a pseudo-legal move yields the board applyMoveToState produces,
      except that the promotion piece is not placed: the two boards agree everywhere but on `to`,
      where both hold a piece of the mover's color. */
  lemma SimulationMatchesApply(st: GameState, from: Square, to: Square, promo: Option<PieceKind>)
    requires st.board[from].Some? && to in PseudoTargets(st, from)
    ensures Applicable(st, from, to)
    ensures var sim, next := SimulatedBoard(st, from, to), NextState(st, from, to, promo).board;
      var color := st.board[from].value.color;
      (forall i: Square :: i != to ==> sim[i] == next[i]) &&
      sim[to].Some? && sim[to].value.color == color && next[to].Some? && next[to].value.color == color
  {
    PseudoTargetsApplicable(st, from, to);
    var p := st.board[from].value;
    if p.kind == King {
      KingJumpIsCastling(st, from, p.color, to);
    }
    assert KingJumpAligned(st, from, to);
    assert from != to by {
      PseudoTargetsEnterable(st, from, to);
      if p.kind == Pawn {
        PawnTargetsMembers(st, from, p.color, to);
      }
    }
    forall i: Square | i != to
      ensures SimulatedBoard(st, from, to)[i] == NextState(st, from, to, promo).board[i]
    {
      SimulationAgrees(st, from, to, promo, i);
    }
    ToSquareAfterMove(st, from, to, promo);
  }

  /** After a pseudo-legal move, the simulated and the real board hold the mover's piece on `to`. */
  lemma ToSquareAfterMove(st: GameState, from: Square, to: Square, promo: Option<PieceKind>)
    requires Applicable(st, from, to) && from != to && KingJumpAligned(st, from, to)
    ensures var sim, next := SimulatedBoard(st, from, to), NextState(st, from, to, promo).board;
      var color := st.board[from].value.color;
      sim[to].Some? && sim[to].value.color == color && next[to].Some? && next[to].value.color == color
  {
  }

  /** Without a promotion the simulated board is exactly the board after the move. */
  lemma SimulationIsApply(st: GameState, from: Square, to: Square)
    requires st.board[from].Some? && to in PseudoTargets(st, from)
    ensures Applicable(st, from, to)
    ensures SimulatedBoard(st, from, to) == NextState(st, from, to, None).board
  {
    SimulationMatchesApply(st, from, to, None);
    var sim, next := SimulatedBoard(st, from, to), NextState(st, from, to, None).board;
    assert sim[to] == next[to];
    assert forall i: Square :: sim[i] == next[i];
  }
}
