/**
 * The board, its pieces and the game state (src/chess/types.ts).
 * A board is a flat sequence of 64 optional pieces; square index = rank * 8 + file,
 * rank 0 being White's back rank and file 0 the a-file.
 */
module Types {
  import opened Wrappers

  datatype PieceKind = King | Queen | Rook | Bishop | Knight | Pawn
  datatype Color = White | Black
  datatype Piece = Piece(kind: PieceKind, color: Color)

  type Square = i: int | 0 <= i < 64
  type Board = b: seq<Option<Piece>> | |b| == 64 witness seq(64, _ => None)

  /** Castling rights: White kingside/queenside (K, Q) and Black kingside/queenside (k, q). */
  datatype CastlingRights = CastlingRights(K: bool, Q: bool, k: bool, q: bool)

  datatype GameState = GameState(
    board: Board,
    activeColor: Color,
    castling: CastlingRights,
    enPassant: Option<Square>,
    halfmove: nat,
    fullmove: nat)

  function Opponent(c: Color): Color {
    match c
    case White => Black
    case Black => White
  }

  const EmptyBoard: Board := seq(64, _ => None)

  /** The standard back rank, files a to h. */
  const BackRank: seq<PieceKind> := [Rook, Knight, Bishop, Queen, King, Bishop, Knight, Rook]

  /** The standard starting layout, square by square. */
  function StartingSquare(i: Square): Option<Piece> {
    if i < 8 then Some(Piece(BackRank[i], White))
    else if i < 16 then Some(Piece(Pawn, White))
    else if i < 48 then None
    else if i < 56 then Some(Piece(Pawn, Black))
    else Some(Piece(BackRank[i - 56], Black))
  }

  function StartingBoard(): Board {
    seq(64, i requires 0 <= i < 64 => StartingSquare(i))
  }

  /** getStartingPosition: allocate 64 empty slots, then fill both sides' two home ranks file by file. */
  method StartingPosition() returns (board: Board)
    ensures board == StartingBoard()
  {
    var a := new Option<Piece>[64](_ => None);
    for f := 0 to 8
      invariant forall i :: 0 <= i < f || 8 <= i < 8 + f ==> a[i] == StartingSquare(i)
      invariant forall i :: f <= i < 8 || 8 + f <= i < 64 ==> a[i] == None
    {
      a[f] := Some(Piece(BackRank[f], White));
      a[8 + f] := Some(Piece(Pawn, White));
    }
    for f := 0 to 8
      invariant forall i :: 0 <= i < 48 + f || 56 <= i < 56 + f ==> a[i] == StartingSquare(i)
      invariant forall i :: 48 + f <= i < 56 || 56 + f <= i < 64 ==> a[i] == None
    {
      a[48 + f] := Some(Piece(Pawn, Black));
      a[56 + f] := Some(Piece(BackRank[f], Black));
    }
    board := a[..];
  }

  /** getStartingGameState (defined outside the shown file; pinned down by its tests). */
  function StartingGameState(): (st: GameState)
    ensures st.activeColor == White
    ensures st.castling == CastlingRights(true, true, true, true)
    ensures st.enPassant == None && st.halfmove == 0 && st.fullmove == 1
  {
    GameState(StartingBoard(), White, CastlingRights(true, true, true, true), None, 0, 1)
  }

  lemma StartingBoardLayout()
    ensures |StartingBoard()| == 64
    ensures forall i :: 16 <= i < 48 ==> StartingBoard()[i] == None
    ensures forall f :: 0 <= f < 8 ==> StartingBoard()[f] == Some(Piece(BackRank[f], White))
    ensures forall i :: 8 <= i < 16 ==> StartingBoard()[i] == Some(Piece(Pawn, White))
    ensures forall i :: 48 <= i < 56 ==> StartingBoard()[i] == Some(Piece(Pawn, Black))
    ensures forall f :: 0 <= f < 8 ==> StartingBoard()[56 + f] == Some(Piece(BackRank[f], Black))
  {
  }
}
