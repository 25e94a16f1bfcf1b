/**
 * The collaborators the move orderer consumes but does not own: the move
 * encoding and the board's exchange, attacker/victim and piece queries.
 * Their implementations are not part of this model; they appear here only
 * through the values they return.
 */
module Chess {

  /** Side to move: 0 for white, 1 for black. */
  type Color = c: int | 0 <= c < 2

  /** A board square, 0 (a1) to 63 (h8). */
  type Square = s: int | 0 <= s < 64

  /** Number of piece types, pawns through kings. */
  const PIECE_COUNT := 6

  /** A piece type as the board's piece-on-square query returns it. */
  type PieceId = p: int | 0 <= p < PIECE_COUNT

  /** The piece a move promotes to, if any. */
  datatype Promotion = NoPromotion | PromoteKnight | PromoteBishop | PromoteRook | PromoteQueen

  /**
   * A move: the fields are exactly what the orderer reads through the move
   * accessors (start square, end square, promotion piece, capture flag).
   * Two moves are equal when all of these agree.
   */
  datatype Move = Move(startSq: Square, endSq: Square, promotion: Promotion, isCapture: bool)

  /** The "no move" sentinel; like the all-zero encoding it is never a legal move. */
  const NULL_MOVE: Move := Move(0, 0, NoPromotion, false)

  /**
   * The board as the orderer queries it. Each query is a total function of
   * the side to move and the move (or square); the orderer never changes the board.
   */
  datatype Board = Board(
    seeForMove: (Color, Move) -> int,
    exchangeScore: (Color, Move) -> int,
    mvvLvaScore: (Color, Move) -> int,
    pieceOnSquare: (Color, Square) -> PieceId)

  /** A value that may be absent, for the nullable per-node history tables. */
  datatype Option<T> = None | Some(value: T)
}
