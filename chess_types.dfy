// Types shared by the mailbox board, the notation, the evaluation and the
// players: piece kinds, colours, board coordinates and the move-type flags.

module ChessTypes {

  /** Piece kinds, in the engine's enum order (DefaultType means "no piece"). */
  datatype PieceType = DefaultType | Pawn | Knight | Bishop | Rook | Queen | King

  datatype PlayerColor = NoColor | White | Black

  /** The side that is not `c`; anything that is not White is answered with White. */
  function Opponent(c: PlayerColor): (o: PlayerColor)
    ensures c == White ==> o == Black
    ensures c != White ==> o == White
  {
    if c == White then Black else White
  }

  const BOARD_SIZE: int := 8

  /** A zero-based board coordinate: x is the file (0 = a), y the row (0 = rank 8). */
  datatype Position = Position(x: int, y: int)

  predicate IsValidPosition(p: Position)
  {
    0 <= p.x < BOARD_SIZE && 0 <= p.y < BOARD_SIZE
  }

  /** The "no square" marker used for an absent en-passant target or an empty move. */
  const NoPosition: Position := Position(-1, -1)

  /**
   * The bit flags a move type is made of. The engine combines them with `|`
   * and tests them with `(t & F) == F`; here a move type is the set of its flags.
   */
  datatype MoveFlag =
    | Normal | DoublePawnPush | PawnPromotion | Capture | EnPassant
    | CastlingKingside | CastlingQueenside | Check | Checkmate

  type MoveType = set<MoveFlag>

  predicate IsCastling(t: MoveType)
  {
    CastlingKingside in t || CastlingQueenside in t
  }

  /** A move candidate: two squares, a type and the piece chosen for a promotion. */
  datatype PossibleMove = PossibleMove(start: Position, end: Position, mtype: MoveType, promotionPiece: PieceType)

  /** A default-constructed candidate: both squares (-1,-1), type Normal, no promotion piece. */
  const EmptyPossibleMove: PossibleMove := PossibleMove(NoPosition, NoPosition, {Normal}, DefaultType)

  predicate IsEmptyMove(m: PossibleMove)
  {
    m.start == NoPosition && m.end == NoPosition
  }

  /** Candidates compare equal when their squares agree; type and promotion piece are ignored. */
  predicate SameSquares(a: PossibleMove, b: PossibleMove)
  {
    a.start == b.start && a.end == b.end
  }

  /**
   * An executed move as the history and the notation see it. The history
   * orders and compares moves by `number` alone.
   */
  datatype Move = Move(
    startingPosition: Position, endingPosition: Position,
    movedPiece: PieceType, capturedPiece: PieceType, promotionType: PieceType,
    player: PlayerColor, mtype: MoveType, notation: string,
    number: int, halfMoveClock: int)

  /** A default-constructed move: squares (0,0), no pieces, no colour, type Normal, number 0. */
  const DefaultMove: Move :=
    Move(Position(0, 0), Position(0, 0), DefaultType, DefaultType, DefaultType, NoColor, {Normal}, "", 0, 0)

  /** The executed-move record built from a candidate: its squares and type, defaults otherwise. */
  function MoveFromPossible(p: PossibleMove): (m: Move)
    ensures m.startingPosition == p.start && m.endingPosition == p.end && m.mtype == p.mtype
    ensures m.movedPiece == DefaultType && m.number == 0
  {
    DefaultMove.(startingPosition := p.start, endingPosition := p.end, mtype := p.mtype)
  }

  function Abs(n: int): (r: nat)
    ensures r == n || r == -n
  {
    if n < 0 then -n else n
  }

  function Max(a: int, b: int): (r: int)
    ensures r >= a && r >= b && (r == a || r == b)
  {
    if a >= b then a else b
  }
}
