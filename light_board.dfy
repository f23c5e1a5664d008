// The mailbox board used by the search: an 8x8 array of small pieces plus
// side to move, king squares, en-passant target, castling rights and clocks,
// with make/unmake of moves.
//
// The 8x8 array mBoard[x][y] is stored as one array of 64 cells, cell x*8+y,
// which is the memory layout of the source's nested fixed-size arrays.

module LightBoard {
  import opened ChessTypes

  /** A square's content; an empty square has type DefaultType. */
  datatype Piece = Piece(ptype: PieceType, color: PlayerColor, hasMoved: bool)

  const EmptyPiece: Piece := Piece(DefaultType, NoColor, false)

  predicate IsEmpty(p: Piece)
  {
    p.ptype == DefaultType
  }

  /** A real piece: some type and some colour. */
  predicate IsValidPiece(p: Piece)
  {
    p.ptype != DefaultType && p.color != NoColor
  }

  function Idx(p: Position): (i: int)
    requires IsValidPosition(p)
    ensures 0 <= i < 64
  {
    p.x * 8 + p.y
  }

  /** The square stored in cell i. */
  function SquareOf(i: int): (p: Position)
    requires 0 <= i < 64
    ensures IsValidPosition(p) && Idx(p) == i
  {
    Position(i / 8, i % 8)
  }

  lemma IdxInjective(p: Position, q: Position)
    requires IsValidPosition(p) && IsValidPosition(q)
    ensures Idx(p) == Idx(q) <==> p == q
  {
  }

  type Cells = c: seq<Piece> | |c| == 64 witness seq(64, i => EmptyPiece)

  function At(c: Cells, p: Position): Piece
    requires IsValidPosition(p)
  {
    c[Idx(p)]
  }

  /** The board with square p holding piece; every other square is unchanged. */
  function Put(c: Cells, p: Position, piece: Piece): Cells
    requires IsValidPosition(p)
  {
    c[Idx(p) := piece]
  }

  /** Putting a piece on p changes square p and no other. */
  lemma PutAt(c: Cells, p: Position, piece: Piece, q: Position)
    requires IsValidPosition(p) && IsValidPosition(q)
    ensures At(Put(c, p, piece), q) == if q == p then piece else At(c, q)
  {
    IdxInjective(p, q);
  }

  const EmptyCells: Cells := seq(64, i => EmptyPiece)

  /** The whole value a board holds. */
  datatype BoardState = BoardState(
    cells: Cells,
    currentPlayer: PlayerColor,
    whiteKingPos: Position,
    blackKingPos: Position,
    enPassantTarget: Position,
    whiteCanCastleKingside: bool,
    whiteCanCastleQueenside: bool,
    blackCanCastleKingside: bool,
    blackCanCastleQueenside: bool,
    halfMoveClock: int,
    fullMoveNumber: int)

  /** The state `clear` leaves. */
  const ClearedState: BoardState :=
    BoardState(EmptyCells, White, Position(4, 7), Position(4, 0), NoPosition, true, true, true, true, 0, 1)

  function SwitchPlayer(c: PlayerColor): PlayerColor
  {
    if c == White then Black else White
  }

  // ---------------------------------------------------------------
  // Material and counts
  // ---------------------------------------------------------------

  /** PIECE_VALUES indexed by piece type: 0, 100, 320, 330, 500, 900, 0. */
  function PieceValue(t: PieceType): (v: int)
    ensures v >= 0
  {
    match t
    case DefaultType => 0
    case Pawn => 100
    case Knight => 320
    case Bishop => 330
    case Rook => 500
    case Queen => 900
    case King => 0
  }

  predicate Owns(p: Piece, player: PlayerColor)
  {
    !IsEmpty(p) && p.color == player
  }

  /** Sum of the values of `player`'s pieces among the cells s. */
  function Material(s: seq<Piece>, player: PlayerColor): (v: int)
    ensures v >= 0
  {
    if s == [] then 0
    else Material(s[..|s| - 1], player) + (if Owns(s[|s| - 1], player) then PieceValue(s[|s| - 1].ptype) else 0)
  }

  /** Number of `player`'s pieces among the cells s, of type t when t is given. */
  function Count(s: seq<Piece>, player: PlayerColor, t: PieceType, anyType: bool): nat
  {
    if s == [] then 0
    else Count(s[..|s| - 1], player, t, anyType) + (if Owns(s[|s| - 1], player) && (anyType || s[|s| - 1].ptype == t) then 1 else 0)
  }

  /** The squares of `player`'s pieces (of type t unless anyType), in cell order. */
  function Positions(s: seq<Piece>, player: PlayerColor, t: PieceType, anyType: bool): seq<Position>
    requires |s| <= 64
  {
    if s == [] then []
    else
      var rest := Positions(s[..|s| - 1], player, t, anyType);
      if Owns(s[|s| - 1], player) && (anyType || s[|s| - 1].ptype == t) then rest + [SquareOf(|s| - 1)] else rest
  }

  /** The piece being counted or listed. */
  predicate Matches(piece: Piece, player: PlayerColor, t: PieceType, anyType: bool)
  {
    Owns(piece, player) && (anyType || piece.ptype == t)
  }

  /**
   * The listed squares are exactly the squares of the matching pieces, and
   * there are as many of them as Count counts.
   */
  lemma {:induction false} PositionsExact(s: seq<Piece>, player: PlayerColor, t: PieceType, anyType: bool)
    requires |s| <= 64
    ensures |Positions(s, player, t, anyType)| == Count(s, player, t, anyType)
    ensures forall p :: p in Positions(s, player, t, anyType) ==>
      IsValidPosition(p) && Idx(p) < |s| && Matches(s[Idx(p)], player, t, anyType)
    ensures forall i :: 0 <= i < |s| && Matches(s[i], player, t, anyType) ==> SquareOf(i) in Positions(s, player, t, anyType)
  {
    if s != [] {
      var s' := s[..|s| - 1];
      PositionsExact(s', player, t, anyType);
      forall i | 0 <= i < |s| && Matches(s[i], player, t, anyType)
        ensures SquareOf(i) in Positions(s, player, t, anyType)
      {
        if i < |s| - 1 {
          assert s'[i] == s[i];
        }
      }
    }
  }

  lemma MaterialStep(s: seq<Piece>, k: nat, player: PlayerColor)
    requires k < |s|
    ensures Material(s[..k + 1], player) == Material(s[..k], player) + (if Owns(s[k], player) then PieceValue(s[k].ptype) else 0)
  {
    assert s[..k + 1][..k] == s[..k];
  }

  lemma CountStep(s: seq<Piece>, k: nat, player: PlayerColor, t: PieceType, anyType: bool)
    requires k < |s|
    ensures Count(s[..k + 1], player, t, anyType) == Count(s[..k], player, t, anyType) + (if Owns(s[k], player) && (anyType || s[k].ptype == t) then 1 else 0)
  {
    assert s[..k + 1][..k] == s[..k];
  }

  lemma PositionsStep(s: seq<Piece>, k: nat, player: PlayerColor, t: PieceType, anyType: bool)
    requires k < |s| <= 64
    ensures Positions(s[..k + 1], player, t, anyType) ==
      Positions(s[..k], player, t, anyType) + (if Owns(s[k], player) && (anyType || s[k].ptype == t) then [SquareOf(k)] else [])
  {
    assert s[..k + 1][..k] == s[..k];
  }

  /** Square (x, y) of the scan: its piece's square is appended when it matches. */
  lemma ScanStep(c: Cells, x: int, y: int, player: PlayerColor, t: PieceType, anyType: bool)
    requires 0 <= x < 8 && 0 <= y < 8
    ensures Positions(c[..x * 8 + y + 1], player, t, anyType) ==
      Positions(c[..x * 8 + y], player, t, anyType)
      + (if Owns(c[x * 8 + y], player) && (anyType || c[x * 8 + y].ptype == t) then [Position(x, y)] else [])
  {
    PositionsStep(c, x * 8 + y, player, t, anyType);
    IdxInjective(SquareOf(x * 8 + y), Position(x, y));
  }

  /** The inner loop of getPiecePositions: the squares of file x appended, rank by rank. */
  method ScanFile(c: Cells, x: int, player: PlayerColor, t: PieceType, anyType: bool, before: seq<Position>)
    returns (positions: seq<Position>)
    requires 0 <= x < 8 && before == Positions(c[..x * 8], player, t, anyType)
    ensures positions == Positions(c[..x * 8 + 8], player, t, anyType)
  {
    positions := before;
    for y := 0 to 8
      invariant positions == Positions(c[..x * 8 + y], player, t, anyType)
    {
      var piece := c[x * 8 + y];
      ScanStep(c, x, y, player, t, anyType);
      if !IsEmpty(piece) && piece.color == player && (anyType || piece.ptype == t) {
        positions := positions + [Position(x, y)];
      }
    }
  }

  const STARTING_MATERIAL: int := 7800
  const ENDGAME_MATERIAL: int := 2500

  /** 0 (opening) from 7800 total material up, 2 (endgame) at 2500 or less, 1 between. */
  function PhaseOfMaterial(total: int): (v: int)
    ensures v in {0, 1, 2}
    ensures v == 0 <==> total >= STARTING_MATERIAL
    ensures v == 2 <==> total <= ENDGAME_MATERIAL
  {
    if total >= STARTING_MATERIAL then 0 else if total <= ENDGAME_MATERIAL then 2 else 1
  }

  function GamePhaseValue(c: Cells): int
  {
    PhaseOfMaterial(Material(c, White) + Material(c, Black))
  }

  // ---------------------------------------------------------------
  // Castling rights inferred from the pieces
  // ---------------------------------------------------------------

  /** A piece of kind t that has never moved. */
  predicate Unmoved(piece: Piece, t: PieceType)
  {
    piece.ptype == t && !piece.hasMoved
  }

  predicate UnmovedAt(c: Cells, p: Position, t: PieceType)
    requires IsValidPosition(p)
  {
    Unmoved(At(c, p), t)
  }

  /** Both castling rights of a side hold iff its king and that rook stand unmoved on their home squares. */
  function InferRights(s: BoardState): (r: BoardState)
    ensures r.cells == s.cells && r.currentPlayer == s.currentPlayer && r.enPassantTarget == s.enPassantTarget
    ensures r.whiteKingPos == s.whiteKingPos && r.blackKingPos == s.blackKingPos
    ensures r.halfMoveClock == s.halfMoveClock && r.fullMoveNumber == s.fullMoveNumber
  {
    var c := s.cells;
    var wk, bk := UnmovedAt(c, Position(4, 7), King), UnmovedAt(c, Position(4, 0), King);
    var wkr, wqr := UnmovedAt(c, Position(7, 7), Rook), UnmovedAt(c, Position(0, 7), Rook);
    var bkr, bqr := UnmovedAt(c, Position(7, 0), Rook), UnmovedAt(c, Position(0, 0), Rook);
    s.(whiteCanCastleKingside := wk && wkr, whiteCanCastleQueenside := wk && wqr,
       blackCanCastleKingside := bk && bkr, blackCanCastleQueenside := bk && bqr)
  }

  // ---------------------------------------------------------------
  // Movement rules
  // ---------------------------------------------------------------

  function Sign(n: int): (s: int)
    ensures s in {-1, 0, 1} && (n > 0 <==> s == 1) && (n < 0 <==> s == -1)
  {
    if n > 0 then 1 else if n < 0 then -1 else 0
  }

  /** Squares on one rank, file or diagonal. */
  predicate OnLine(from: Position, to: Position)
  {
    from.x == to.x || from.y == to.y || Abs(to.x - from.x) == Abs(to.y - from.y)
  }

  function Distance(from: Position, to: Position): nat
  {
    Max(Abs(to.x - from.x), Abs(to.y - from.y))
  }

  /** The k-th square from `from` towards `to`. */
  function Step(from: Position, to: Position, k: int): Position
  {
    Position(from.x + k * Sign(to.x - from.x), from.y + k * Sign(to.y - from.y))
  }

  lemma StepOnBoard(from: Position, to: Position, k: int)
    requires IsValidPosition(from) && IsValidPosition(to) && OnLine(from, to)
    requires 0 <= k <= Distance(from, to)
    ensures IsValidPosition(Step(from, to, k))
    ensures Step(from, to, k) == to <==> k == Distance(from, to)
  {
  }

  /** The k-th square is one sign step past the (k-1)-th. */
  lemma StepNext(from: Position, to: Position, k: int)
    ensures Step(from, to, k + 1) == Position(Step(from, to, k).x + Sign(to.x - from.x), Step(from, to, k).y + Sign(to.y - from.y))
  {
  }

  /** The squares 1 .. k-1 on the way from `from` to `to` (and never `to` itself) are empty. */
  predicate ClearBefore(c: Cells, from: Position, to: Position, k: int)
    requires IsValidPosition(from) && IsValidPosition(to) && OnLine(from, to)
  {
    forall j :: 0 < j < k && j < Distance(from, to) ==> (StepOnBoard(from, to, j); IsEmpty(At(c, Step(from, to, j))))
  }

  /** Every square strictly between `from` and `to` is empty. */
  predicate PathClear(c: Cells, from: Position, to: Position)
    requires IsValidPosition(from) && IsValidPosition(to) && OnLine(from, to)
  {
    ClearBefore(c, from, to, Distance(from, to))
  }

  /** Pseudo-legal reachability of `to` from `from` for a piece of the given type and colour. */
  function CanMove(s: BoardState, from: Position, to: Position, piece: PieceType, player: PlayerColor): bool
  {
    if !IsValidPosition(from) || !IsValidPosition(to) || from == to then false
    else
      var dx := to.x - from.x;
      var dy := to.y - from.y;
      var c := s.cells;
      match piece
      case Pawn =>
        var dir := if player == White then -1 else 1;
        if dx == 0 then
          (dy == dir && IsEmpty(At(c, to)))
          || (dy == 2 * dir && from.y == (if player == White then 6 else 1)
              && IsEmpty(At(c, to)) && IsEmpty(At(c, Position(from.x, from.y + dir))))
        else if Abs(dx) == 1 && dy == dir then
          (!IsEmpty(At(c, to)) && At(c, to).color != player) || to == s.enPassantTarget
        else false
      case Knight => (Abs(dx) == 2 && Abs(dy) == 1) || (Abs(dx) == 1 && Abs(dy) == 2)
      case Bishop => Abs(dx) == Abs(dy) && PathClear(c, from, to)
      case Rook => (dx == 0 || dy == 0) && PathClear(c, from, to)
      case Queen => (dx == 0 || dy == 0 || Abs(dx) == Abs(dy)) && PathClear(c, from, to)
      case King => Abs(dx) <= 1 && Abs(dy) <= 1
      case DefaultType => false
  }

  // ---------------------------------------------------------------
  // Making a move
  // ---------------------------------------------------------------

  function HomeRow(c: PlayerColor): int
  {
    if c == White then 7 else 0
  }

  function RookStartX(t: MoveType): int
  {
    if CastlingKingside in t then 7 else 0
  }

  function RookEndX(t: MoveType): int
  {
    if CastlingKingside in t then 5 else 3
  }

  /** The row of the pawn an en-passant capture by `mover` removes. */
  function EnPassantVictimY(mover: PlayerColor, end: Position): int
  {
    if mover == White then end.y + 1 else end.y - 1
  }

  /** Both squares are on the board, and so is the pawn square an en-passant capture removes. */
  predicate MoveOnBoard(c: Cells, m: PossibleMove)
  {
    IsValidPosition(m.start) && IsValidPosition(m.end)
    && (!IsCastling(m.mtype) && EnPassant in m.mtype ==>
          IsValidPosition(Position(m.end.x, EnPassantVictimY(At(c, m.start).color, m.end))))
  }

  /** executeCastling: the king to the destination, then the rook from its corner to the square beside it. */
  function CastleCells(c: Cells, m: PossibleMove): Cells
    requires IsValidPosition(m.start) && IsValidPosition(m.end)
  {
    var king := At(c, m.start);
    var c1 := Put(Put(c, m.end, king), m.start, EmptyPiece);
    var rs := Position(RookStartX(m.mtype), HomeRow(king.color));
    var re := Position(RookEndX(m.mtype), HomeRow(king.color));
    Put(Put(c1, re, At(c1, rs)), rs, EmptyPiece)
  }

  /** executeEnPassant: the pawn to the destination, then the pawn it passed removed. */
  function EnPassantCells(c: Cells, m: PossibleMove): Cells
    requires MoveOnBoard(c, m) && !IsCastling(m.mtype) && EnPassant in m.mtype
  {
    var pawn := At(c, m.start);
    var c1 := Put(Put(c, m.end, pawn), m.start, EmptyPiece);
    Put(c1, Position(m.end.x, EnPassantVictimY(pawn.color, m.end)), EmptyPiece)
  }

  /** A normal move: the piece to the destination, replaced by the chosen piece on a promotion. */
  function NormalCells(c: Cells, m: PossibleMove): Cells
    requires IsValidPosition(m.start) && IsValidPosition(m.end)
  {
    var moving := At(c, m.start);
    var c1 := Put(Put(c, m.end, moving), m.start, EmptyPiece);
    if PawnPromotion in m.mtype then Put(c1, m.end, Piece(m.promotionPiece, moving.color, true)) else c1
  }

  /** The board after the piece placement part of makeMove, up to and including the hasMoved mark. */
  function MovePieces(c: Cells, m: PossibleMove): Cells
    requires MoveOnBoard(c, m)
  {
    var moved := PlacedCells(c, m);
    Put(moved, m.end, At(moved, m.end).(hasMoved := true))
  }

  /** The squares once makeMove has dispatched on the move type, before the hasMoved mark. */
  function PlacedCells(c: Cells, m: PossibleMove): Cells
    requires MoveOnBoard(c, m)
  {
    if IsCastling(m.mtype) then CastleCells(c, m)
    else if EnPassant in m.mtype then EnPassantCells(c, m)
    else NormalCells(c, m)
  }

  function WithCastlingRights(s: BoardState, player: PlayerColor, kingside: bool, queenside: bool): BoardState
  {
    if player == White then s.(whiteCanCastleKingside := kingside, whiteCanCastleQueenside := queenside)
    else s.(blackCanCastleKingside := kingside, blackCanCastleQueenside := queenside)
  }

  /** updateGameState: rights, en-passant target, clocks and side to move, from the piece now on m.end. */
  function UpdatedGameState(s: BoardState, m: PossibleMove): BoardState
    requires IsValidPosition(m.start) && IsValidPosition(m.end)
  {
    GameStateAfter(s, m, At(s.cells, m.end))
  }

  /** updateGameState once it has read the piece mp standing on the destination. */
  function GameStateAfter(s: BoardState, m: PossibleMove, mp: Piece): (r: BoardState)
    ensures r.cells == s.cells && r.whiteKingPos == s.whiteKingPos && r.blackKingPos == s.blackKingPos
  {
    var ep := if mp.ptype == Pawn && Abs(m.end.y - m.start.y) == 2
              then Position(m.start.x, (m.start.y + m.end.y) / 2) else NoPosition;
    var half := if mp.ptype == Pawn || Capture in m.mtype then 0 else s.halfMoveClock + 1;
    var full := if s.currentPlayer == Black then s.fullMoveNumber + 1 else s.fullMoveNumber;
    RightsAfter(s, m, mp).(enPassantTarget := ep, halfMoveClock := half, fullMoveNumber := full,
                           currentPlayer := SwitchPlayer(s.currentPlayer))
  }

  /** The castling rights once the piece mp has moved from m.start: a king loses both, a rook in a corner file its side's. */
  function RightsAfter(s: BoardState, m: PossibleMove, mp: Piece): (r: BoardState)
    ensures r == s.(whiteCanCastleKingside := r.whiteCanCastleKingside, whiteCanCastleQueenside := r.whiteCanCastleQueenside,
                    blackCanCastleKingside := r.blackCanCastleKingside, blackCanCastleQueenside := r.blackCanCastleQueenside)
  {
    if mp.ptype == King then WithCastlingRights(s, mp.color, false, false)
    else if mp.ptype == Rook && m.start.x == 0 then
      (if mp.color == White then s.(whiteCanCastleQueenside := false) else s.(blackCanCastleQueenside := false))
    else if mp.ptype == Rook && m.start.x == 7 then
      (if mp.color == White then s.(whiteCanCastleKingside := false) else s.(blackCanCastleKingside := false))
    else s
  }

  function KingPos(s: BoardState, player: PlayerColor): Position
  {
    if player == White then s.whiteKingPos else s.blackKingPos
  }

  /** The state after makeMove. */
  function MakeState(s: BoardState, m: PossibleMove): BoardState
    requires MoveOnBoard(s.cells, m)
  {
    UpdatedGameState(PlacedState(s, m), m)
  }

  /** makeMove before updateGameState: the pieces moved and marked, and the mover's king square if it is a king. */
  function PlacedState(s: BoardState, m: PossibleMove): BoardState
    requires MoveOnBoard(s.cells, m)
  {
    var mover := At(s.cells, m.start);
    var kingMoved := mover.ptype == King;
    s.(cells := MovePieces(s.cells, m),
       whiteKingPos := if kingMoved && mover.color == White then m.end else s.whiteKingPos,
       blackKingPos := if kingMoved && mover.color != White then m.end else s.blackKingPos)
  }

  /**
   * What makeMove saves. The first nine fields are the source's record; the
   * last two hold the pieces the corrected unmake needs: the piece that stood
   * on the start square and the pawn an en-passant capture removes.
   */
  datatype MoveUndo = MoveUndo(
    move: PossibleMove,
    capturedPiece: Piece,
    enPassantTarget: Position,
    whiteCanCastleKingside: bool,
    whiteCanCastleQueenside: bool,
    blackCanCastleKingside: bool,
    blackCanCastleQueenside: bool,
    halfMoveClock: int,
    fullMoveNumber: int,
    movingPiece: Piece,
    enPassantVictim: Piece)

  function UndoOf(s: BoardState, m: PossibleMove): MoveUndo
    requires MoveOnBoard(s.cells, m)
  {
    var victim :=
      if !IsCastling(m.mtype) && EnPassant in m.mtype
      then At(s.cells, Position(m.end.x, EnPassantVictimY(At(s.cells, m.start).color, m.end)))
      else EmptyPiece;
    MoveUndo(m, At(s.cells, m.end), s.enPassantTarget,
      s.whiteCanCastleKingside, s.whiteCanCastleQueenside, s.blackCanCastleKingside, s.blackCanCastleQueenside,
      s.halfMoveClock, s.fullMoveNumber, At(s.cells, m.start), victim)
  }

  function RestoreFromUndo(s: BoardState, u: MoveUndo): BoardState
  {
    s.(enPassantTarget := u.enPassantTarget,
       whiteCanCastleKingside := u.whiteCanCastleKingside, whiteCanCastleQueenside := u.whiteCanCastleQueenside,
       blackCanCastleKingside := u.blackCanCastleKingside, blackCanCastleQueenside := u.blackCanCastleQueenside,
       halfMoveClock := u.halfMoveClock, fullMoveNumber := u.fullMoveNumber,
       currentPlayer := SwitchPlayer(s.currentPlayer))
  }

  // ---------------------------------------------------------------
  // Unmaking a move
  // ---------------------------------------------------------------

  /** The squares unmakeMove as written touches are on the board. */
  predicate UnmakeOnBoard(c: Cells, u: MoveUndo)
  {
    IsValidPosition(u.move.start) && IsValidPosition(u.move.end)
    && (!IsCastling(u.move.mtype) && EnPassant in u.move.mtype ==>
          IsValidPosition(Position(u.move.end.x, EnPassantVictimY(At(c, u.move.end).color, u.move.end))))
  }

  /**
   * The squares after unmakeMove as the source writes it. The castling branch
   * takes the rook from x = 5 for a queenside and x = 3 for a kingside castle
   * (the reverse of executeCastling) and leaves the king on its destination
   * square; the en-passant branch puts back the piece saved from the
   * destination square, which is the empty square, instead of the captured
   * pawn; and the piece put back on the start square is whatever stands on the
   * destination, which after a promotion is the promoted piece.
   */
  function UnmakeCellsAsWritten(c: Cells, u: MoveUndo): Cells
    requires UnmakeOnBoard(c, u)
  {
    var m := u.move;
    var mp := At(c, m.end);
    var c1 := Put(c, m.start, mp);
    if IsCastling(m.mtype) then
      var rs := Position(if CastlingKingside in m.mtype then 7 else 0, HomeRow(mp.color));
      var re := Position(if CastlingQueenside in m.mtype then 5 else 3, HomeRow(mp.color));
      Put(Put(c1, rs, At(c1, re)), re, EmptyPiece)
    else if EnPassant in m.mtype then
      Put(Put(c1, Position(m.end.x, EnPassantVictimY(mp.color, m.end)), u.capturedPiece), m.end, EmptyPiece)
    else if !IsEmpty(u.capturedPiece) then Put(c1, m.end, u.capturedPiece)
    else Put(c1, m.end, EmptyPiece)
  }

  /** unmakeMove as written: its squares, the king square of the piece found on the destination, and the saved fields. */
  function UnmakeStateAsWritten(s: BoardState, u: MoveUndo): BoardState
    requires UnmakeOnBoard(s.cells, u)
  {
    var mp := At(s.cells, u.move.end);
    var kingMoved := mp.ptype == King;
    RestoreFromUndo(s.(cells := UnmakeCellsAsWritten(s.cells, u),
                       whiteKingPos := if kingMoved && mp.color == White then u.move.start else s.whiteKingPos,
                       blackKingPos := if kingMoved && mp.color != White then u.move.start else s.blackKingPos), u)
  }

  /**
   * The squares after unmakeMove as it is evidently meant to work: the rook
   * goes back from the square executeCastling put it on, an en-passant capture
   * gets its pawn back, the destination square gets back what stood there and
   * the start square gets back the piece that left it.
   */
  function UnmakeCells(c: Cells, u: MoveUndo): Cells
    requires UnmakeOnBoard(c, u)
  {
    var m := u.move;
    var home := HomeRow(At(c, m.end).color);
    var c1 :=
      if IsCastling(m.mtype) then
        var rs := Position(RookStartX(m.mtype), home);
        var re := Position(RookEndX(m.mtype), home);
        Put(Put(c, rs, At(c, re)), re, EmptyPiece)
      else if EnPassant in m.mtype then
        Put(c, Position(m.end.x, EnPassantVictimY(At(c, m.end).color, m.end)), u.enPassantVictim)
      else c;
    Put(Put(c1, m.end, u.capturedPiece), m.start, u.movingPiece)
  }

  /** The corrected unmakeMove: corrected squares, the king square of the piece that moved, and the saved fields. */
  function UnmakeState(s: BoardState, u: MoveUndo): BoardState
    requires UnmakeOnBoard(s.cells, u)
  {
    var kingMoved := u.movingPiece.ptype == King;
    RestoreFromUndo(s.(cells := UnmakeCells(s.cells, u),
                       whiteKingPos := if kingMoved && u.movingPiece.color == White then u.move.start else s.whiteKingPos,
                       blackKingPos := if kingMoved && u.movingPiece.color != White then u.move.start else s.blackKingPos), u)
  }

  // ---------------------------------------------------------------
  // The starting position
  // ---------------------------------------------------------------

  /** Back-rank piece kinds by file: R N B Q K B N R. */
  function BackRankType(x: int): PieceType
  {
    if x == 0 || x == 7 then Rook
    else if x == 1 || x == 6 then Knight
    else if x == 2 || x == 5 then Bishop
    else if x == 3 then Queen
    else King
  }

  /** initializePieces: White on rows 7 and 6, Black on rows 0 and 1, none marked as moved. */
  function StartPiece(p: Position): Piece
  {
    if p.y == 7 then Piece(BackRankType(p.x), White, false)
    else if p.y == 6 then Piece(Pawn, White, false)
    else if p.y == 1 then Piece(Pawn, Black, false)
    else if p.y == 0 then Piece(BackRankType(p.x), Black, false)
    else EmptyPiece
  }

  predicate IsStartRow(y: int)
  {
    y == 0 || y == 1 || y == 6 || y == 7
  }

  /** The cells after initializePieces on the board c: the four start rows replaced, the rest kept. */
  function PlaceStartPieces(c: Cells): (r: Cells)
    ensures forall i :: 0 <= i < 64 ==> r[i] == (if IsStartRow(SquareOf(i).y) then StartPiece(SquareOf(i)) else c[i])
  {
    seq(64, i requires 0 <= i < 64 => if IsStartRow(SquareOf(i).y) then StartPiece(SquareOf(i)) else c[i])
  }

  /** The eight indices of file x are the squares (x, 0) .. (x, 7). */
  lemma FileSquares(x: int)
    requires 0 <= x < 8
    ensures forall i :: x * 8 <= i < x * 8 + 8 ==> SquareOf(i) == Position(x, i - x * 8)
  {
    forall i | x * 8 <= i < x * 8 + 8
      ensures SquareOf(i) == Position(x, i - x * 8)
    {
      IdxInjective(SquareOf(i), Position(x, i - x * 8));
    }
  }

  const StartCells: Cells := seq(64, i requires 0 <= i < 64 => StartPiece(SquareOf(i)))

  lemma PlaceOnCleared()
    ensures PlaceStartPieces(EmptyCells) == StartCells
  {
    forall i | 0 <= i < 64
      ensures PlaceStartPieces(EmptyCells)[i] == StartCells[i]
    {
    }
  }

  lemma StartCell(x: int, y: int)
    requires 0 <= x < 8 && 0 <= y < 8
    ensures StartCells[x * 8 + y] == StartPiece(Position(x, y))
  {
    assert SquareOf(x * 8 + y) == Position(x, y);
  }

  /** The cells hold the starting position. */
  predicate IsStartLayout(c: Cells)
  {
    forall x, y :: 0 <= x < 8 && 0 <= y < 8 ==> c[x * 8 + y] == StartPiece(Position(x, y))
  }

  /** One file of the starting position adds its back-rank piece and a pawn to each side. */
  lemma StartColumnMaterial(c: Cells, x: int, player: PlayerColor)
    requires IsStartLayout(c) && 0 <= x < 8 && (player == White || player == Black)
    ensures Material(c[..x * 8 + 8], player) == Material(c[..x * 8], player) + PieceValue(BackRankType(x)) + 100
  {
    StartSquareMaterial(c, x, 0, player);
    StartSquareMaterial(c, x, 1, player);
    StartSquareMaterial(c, x, 2, player);
    StartSquareMaterial(c, x, 3, player);
    StartSquareMaterial(c, x, 4, player);
    StartSquareMaterial(c, x, 5, player);
    StartSquareMaterial(c, x, 6, player);
    StartSquareMaterial(c, x, 7, player);
  }

  /** One square of the starting position adds its piece's value when it is the player's. */
  lemma StartSquareMaterial(c: Cells, x: int, y: int, player: PlayerColor)
    requires IsStartLayout(c) && 0 <= x < 8 && 0 <= y < 8
    ensures var p := StartPiece(Position(x, y));
      Material(c[..x * 8 + y + 1], player) == Material(c[..x * 8 + y], player) + (if Owns(p, player) then PieceValue(p.ptype) else 0)
  {
    assert c[x * 8 + y] == StartPiece(Position(x, y));
    MaterialStep(c, x * 8 + y, player);
  }

  lemma {:induction false} StartColumnCount(c: Cells, x: int, player: PlayerColor)
    requires IsStartLayout(c) && 0 <= x < 8 && (player == White || player == Black)
    ensures Count(c[..x * 8 + 8], player, DefaultType, true) == Count(c[..x * 8], player, DefaultType, true) + 2
  {
    var k := x * 8;
    var y := 0;
    while y < 8
      invariant 0 <= y <= 8
      invariant Count(c[..k + y], player, DefaultType, true) == Count(c[..k], player, DefaultType, true)
        + (if player == Black && y > 0 then 1 else 0) + (if player == Black && y > 1 then 1 else 0)
        + (if player == White && y > 6 then 1 else 0) + (if player == White && y > 7 then 1 else 0)
    {
      assert c[k + y] == StartPiece(Position(x, y));
      CountStep(c, k + y, player, DefaultType, true);
      y := y + 1;
    }
  }

  lemma {:induction false} StartSide(c: Cells, player: PlayerColor)
    requires IsStartLayout(c) && (player == White || player == Black)
    ensures Count(c, player, DefaultType, true) == 16 && Material(c, player) == 4000
  {
    var x := 0;
    while x < 8
      invariant 0 <= x <= 8
      invariant Count(c[..x * 8], player, DefaultType, true) == 2 * x
      invariant Material(c[..x * 8], player) == 100 * x + BackRankValue(x)
    {
      StartColumnMaterial(c, x, player);
      StartColumnCount(c, x, player);
      x := x + 1;
    }
    assert c[..64] == c;
  }

  /** The starting position has 16 pieces and 4000 of material for each side, so it is in the opening phase. */
  lemma StartingPosition()
    ensures Count(StartCells, White, DefaultType, true) == 16 && Count(StartCells, Black, DefaultType, true) == 16
    ensures Material(StartCells, White) == 4000 && Material(StartCells, Black) == 4000
    ensures GamePhaseValue(StartCells) == 0
  {
    forall x, y | 0 <= x < 8 && 0 <= y < 8
      ensures StartCells[x * 8 + y] == StartPiece(Position(x, y))
    {
      StartCell(x, y);
    }
    StartSide(StartCells, White);
    StartSide(StartCells, Black);
  }

  /** On the starting layout all four castling rights are inferred. */
  lemma StartRights(s: BoardState)
    requires IsStartLayout(s.cells)
    ensures var r := InferRights(s);
      r.whiteCanCastleKingside && r.whiteCanCastleQueenside && r.blackCanCastleKingside && r.blackCanCastleQueenside
  {
    assert s.cells[4 * 8 + 7] == StartPiece(Position(4, 7)) && s.cells[4 * 8 + 0] == StartPiece(Position(4, 0));
    assert s.cells[7 * 8 + 7] == StartPiece(Position(7, 7)) && s.cells[0 * 8 + 7] == StartPiece(Position(0, 7));
    assert s.cells[7 * 8 + 0] == StartPiece(Position(7, 0)) && s.cells[0 * 8 + 0] == StartPiece(Position(0, 0));
  }

  /**
   * White keeps a castling right exactly when its king and that rook are
   * unmoved on their home squares (row 7).
   */
  lemma WhiteRightsInferred(s: BoardState)
    ensures InferRights(s).whiteCanCastleKingside <==> UnmovedAt(s.cells, Position(4, 7), King) && UnmovedAt(s.cells, Position(7, 7), Rook)
    ensures InferRights(s).whiteCanCastleQueenside <==> UnmovedAt(s.cells, Position(4, 7), King) && UnmovedAt(s.cells, Position(0, 7), Rook)
  {
  }

  /** The same for Black, on row 0. */
  lemma BlackRightsInferred(s: BoardState)
    ensures InferRights(s).blackCanCastleKingside <==> UnmovedAt(s.cells, Position(4, 0), King) && UnmovedAt(s.cells, Position(7, 0), Rook)
    ensures InferRights(s).blackCanCastleQueenside <==> UnmovedAt(s.cells, Position(4, 0), King) && UnmovedAt(s.cells, Position(0, 0), Rook)
  {
  }

  /** A king marked as moved on its home square takes both of its side's rights away. */
  lemma MovedKingLosesRights(s: BoardState)
    ensures s.cells[4 * 8 + 7].hasMoved ==> !InferRights(s).whiteCanCastleKingside && !InferRights(s).whiteCanCastleQueenside
    ensures s.cells[4 * 8 + 0].hasMoved ==> !InferRights(s).blackCanCastleKingside && !InferRights(s).blackCanCastleQueenside
  {
    WhiteRightsInferred(s);
    BlackRightsInferred(s);
    assert At(s.cells, Position(4, 7)) == s.cells[4 * 8 + 7];
    assert At(s.cells, Position(4, 0)) == s.cells[4 * 8 + 0];
  }

  /** The value of the back-rank pieces on files 0..n-1. */
  function BackRankValue(n: int): int
    requires 0 <= n <= 8
  {
    if n == 0 then 0 else BackRankValue(n - 1) + PieceValue(BackRankType(n - 1))
  }

  /** isEndgame: under 2500 of material in total, or at most 12 pieces on the board. */
  predicate IsEndgameCells(c: Cells)
  {
    Material(c, White) + Material(c, Black) < 2500
    || Count(c, White, DefaultType, true) + Count(c, Black, DefaultType, true) <= 12
  }

  // ---------------------------------------------------------------
  // Properties of a move and of its undo
  // ---------------------------------------------------------------

  /** Every empty square is the default piece (no colour, not moved). */
  predicate WellFormed(c: Cells)
  {
    forall i :: 0 <= i < 64 && IsEmpty(c[i]) ==> c[i] == EmptyPiece
  }

  function Mover(s: BoardState, m: PossibleMove): Piece
    requires IsValidPosition(m.start)
  {
    At(s.cells, m.start)
  }

  /** An ordinary move or capture: the mover lands on the destination, marked as moved, and leaves its square empty. */
  lemma OrdinaryMovePlacement(s: BoardState, m: PossibleMove)
    requires MoveOnBoard(s.cells, m) && m.start != m.end
    requires !IsCastling(m.mtype) && EnPassant !in m.mtype && PawnPromotion !in m.mtype
    ensures At(MakeState(s, m).cells, m.end) == Mover(s, m).(hasMoved := true)
    ensures At(MakeState(s, m).cells, m.start) == EmptyPiece
    ensures forall q :: IsValidPosition(q) && q != m.start && q != m.end ==> At(MakeState(s, m).cells, q) == At(s.cells, q)
  {
    assert MakeState(s, m).cells == MovePieces(s.cells, m);
    forall q | IsValidPosition(q)
      ensures At(MakeState(s, m).cells, q) ==
        if q == m.end then Mover(s, m).(hasMoved := true) else if q == m.start then EmptyPiece else At(s.cells, q)
    {
      NormalMoveAt(s.cells, m, q);
    }
  }

  /** Each square after a move that is neither castling nor en passant. */
  lemma NormalMoveAt(c: Cells, m: PossibleMove, q: Position)
    requires MoveOnBoard(c, m) && m.start != m.end && IsValidPosition(q)
    requires !IsCastling(m.mtype) && EnPassant !in m.mtype
    ensures var moving := At(c, m.start);
      At(MovePieces(c, m), q) ==
        if q == m.end then (if PawnPromotion in m.mtype then Piece(m.promotionPiece, moving.color, true) else moving.(hasMoved := true))
        else if q == m.start then EmptyPiece
        else At(c, q)
  {
    var moving := At(c, m.start);
    var c0 := Put(c, m.end, moving);
    var c1 := Put(c0, m.start, EmptyPiece);
    PutAt(c, m.end, moving, q);
    PutAt(c, m.end, moving, m.end);
    PutAt(c0, m.start, EmptyPiece, q);
    PutAt(c0, m.start, EmptyPiece, m.end);
    var promoted := Piece(m.promotionPiece, moving.color, true);
    PutAt(c1, m.end, promoted, q);
    PutAt(c1, m.end, promoted, m.end);
    var moved := NormalCells(c, m);
    assert moved == PlacedCells(c, m);
    PutAt(moved, m.end, At(moved, m.end).(hasMoved := true), q);
  }

  /** A promotion leaves the chosen piece, of the pawn's colour, on the destination. */
  lemma PromotionPlacement(s: BoardState, m: PossibleMove)
    requires MoveOnBoard(s.cells, m) && m.start != m.end
    requires !IsCastling(m.mtype) && EnPassant !in m.mtype && PawnPromotion in m.mtype
    ensures At(MakeState(s, m).cells, m.end) == Piece(m.promotionPiece, Mover(s, m).color, true)
    ensures At(MakeState(s, m).cells, m.start) == EmptyPiece
  {
    assert MakeState(s, m).cells == MovePieces(s.cells, m);
    NormalMoveAt(s.cells, m, m.end);
    NormalMoveAt(s.cells, m, m.start);
  }

  /** The side to move, the clocks and the en-passant target after any move. */
  lemma ClocksAfterMove(s: BoardState, m: PossibleMove)
    requires MoveOnBoard(s.cells, m)
    ensures var r := MakeState(s, m); var p := At(r.cells, m.end);
      && r.currentPlayer == Opponent(s.currentPlayer)
      && r.fullMoveNumber == (if s.currentPlayer == Black then s.fullMoveNumber + 1 else s.fullMoveNumber)
      && ((p.ptype == Pawn || Capture in m.mtype) ==> r.halfMoveClock == 0)
      && (!(p.ptype == Pawn || Capture in m.mtype) ==> r.halfMoveClock == s.halfMoveClock + 1)
      && (r.enPassantTarget != NoPosition <==> p.ptype == Pawn && Abs(m.end.y - m.start.y) == 2)
      && (r.enPassantTarget != NoPosition ==>
            IsValidPosition(r.enPassantTarget) && r.enPassantTarget.x == m.start.x
            && Abs(r.enPassantTarget.y - m.start.y) == 1 && Abs(r.enPassantTarget.y - m.end.y) == 1)
  {
    var placed := PlacedState(s, m);
    GameStateAfterClocks(placed, m, At(placed.cells, m.end));
  }

  /** ClocksAfterMove for the piece mp found on the destination. */
  lemma GameStateAfterClocks(s: BoardState, m: PossibleMove, mp: Piece)
    requires IsValidPosition(m.start) && IsValidPosition(m.end)
    ensures var r := GameStateAfter(s, m, mp);
      && r.currentPlayer == Opponent(s.currentPlayer)
      && r.fullMoveNumber == (if s.currentPlayer == Black then s.fullMoveNumber + 1 else s.fullMoveNumber)
      && r.halfMoveClock == (if mp.ptype == Pawn || Capture in m.mtype then 0 else s.halfMoveClock + 1)
      && (r.enPassantTarget != NoPosition <==> mp.ptype == Pawn && Abs(m.end.y - m.start.y) == 2)
      && (r.enPassantTarget != NoPosition ==>
            IsValidPosition(r.enPassantTarget) && r.enPassantTarget.x == m.start.x
            && Abs(r.enPassantTarget.y - m.start.y) == 1 && Abs(r.enPassantTarget.y - m.end.y) == 1)
  {
  }

  /** A pawn's double step from its start row makes the square it passed the en-passant target. */
  lemma DoubleStepTarget(s: BoardState, m: PossibleMove)
    requires MoveOnBoard(s.cells, m) && !IsCastling(m.mtype) && EnPassant !in m.mtype && PawnPromotion !in m.mtype
    requires m.start != m.end && Mover(s, m).ptype == Pawn && m.end.x == m.start.x
    ensures m.end.y == m.start.y - 2 ==> MakeState(s, m).enPassantTarget == Position(m.start.x, m.start.y - 1)
    ensures m.end.y == m.start.y + 2 ==> MakeState(s, m).enPassantTarget == Position(m.start.x, m.start.y + 1)
    ensures Abs(m.end.y - m.start.y) != 2 ==> MakeState(s, m).enPassantTarget == NoPosition
  {
    OrdinaryMovePlacement(s, m);
  }

  /** The castling rights after a move, decided by the piece standing on the destination. */
  lemma RightsAfterMove(s: BoardState, m: PossibleMove)
    requires MoveOnBoard(s.cells, m)
    ensures var r := MakeState(s, m); var p := At(r.cells, m.end);
      && (p.ptype == King && p.color == White ==>
            !r.whiteCanCastleKingside && !r.whiteCanCastleQueenside
            && r.blackCanCastleKingside == s.blackCanCastleKingside && r.blackCanCastleQueenside == s.blackCanCastleQueenside)
      && (p.ptype == King && p.color != White ==>
            !r.blackCanCastleKingside && !r.blackCanCastleQueenside
            && r.whiteCanCastleKingside == s.whiteCanCastleKingside && r.whiteCanCastleQueenside == s.whiteCanCastleQueenside)
      && (p.ptype == Rook && m.start.x == 0 ==>
            r.whiteCanCastleKingside == s.whiteCanCastleKingside && r.blackCanCastleKingside == s.blackCanCastleKingside
            && r.whiteCanCastleQueenside == (s.whiteCanCastleQueenside && p.color != White)
            && r.blackCanCastleQueenside == (s.blackCanCastleQueenside && p.color == White))
      && (p.ptype == Rook && m.start.x == 7 ==>
            r.whiteCanCastleQueenside == s.whiteCanCastleQueenside && r.blackCanCastleQueenside == s.blackCanCastleQueenside
            && r.whiteCanCastleKingside == (s.whiteCanCastleKingside && p.color != White)
            && r.blackCanCastleKingside == (s.blackCanCastleKingside && p.color == White))
      && (p.ptype != King && (p.ptype != Rook || (m.start.x != 0 && m.start.x != 7)) ==>
            r.whiteCanCastleKingside == s.whiteCanCastleKingside && r.whiteCanCastleQueenside == s.whiteCanCastleQueenside
            && r.blackCanCastleKingside == s.blackCanCastleKingside && r.blackCanCastleQueenside == s.blackCanCastleQueenside)
  {
  }

  /** The four squares of a castle: king start and end, rook start and end, all different. */
  predicate FourSquares(start: Position, end: Position, rs: Position, re: Position)
  {
    IsValidPosition(start) && IsValidPosition(end) && IsValidPosition(rs) && IsValidPosition(re)
    && start != end && start != rs && start != re && end != rs && end != re && rs != re
  }

  /** The squares after castling, in terms of the squares before. */
  predicate CastledFrom(c: Cells, r: Cells, start: Position, end: Position, rs: Position, re: Position)
    requires FourSquares(start, end, rs, re)
  {
    forall i :: 0 <= i < 64 ==>
      r[i] == (if i == Idx(end) then At(c, start).(hasMoved := true)
               else if i == Idx(start) || i == Idx(rs) then EmptyPiece
               else if i == Idx(re) then At(c, rs)
               else c[i])
  }

  lemma CastleSteps(c: Cells, start: Position, end: Position, rs: Position, re: Position)
    requires FourSquares(start, end, rs, re)
    ensures var c1 := Put(Put(c, end, At(c, start)), start, EmptyPiece);
      var c2 := Put(Put(c1, re, At(c1, rs)), rs, EmptyPiece);
      CastledFrom(c, Put(c2, end, At(c2, end).(hasMoved := true)), start, end, rs, re)
  {
    IdxInjective(start, end);
    IdxInjective(start, rs);
    IdxInjective(start, re);
    IdxInjective(end, rs);
    IdxInjective(end, re);
    IdxInjective(rs, re);
  }

  /** Moving the rook back and restoring the two king squares reverses a castle when the rook's square was empty. */
  lemma UncastleSteps(c: Cells, r: Cells, start: Position, end: Position, rs: Position, re: Position)
    requires FourSquares(start, end, rs, re) && CastledFrom(c, r, start, end, rs, re) && At(c, re) == EmptyPiece
    ensures Put(Put(Put(Put(r, rs, At(r, re)), re, EmptyPiece), end, At(c, end)), start, At(c, start)) == c
  {
    IdxInjective(start, end);
    IdxInjective(start, rs);
    IdxInjective(start, re);
    IdxInjective(end, rs);
    IdxInjective(end, re);
    IdxInjective(rs, re);
    var back := Put(Put(Put(Put(r, rs, At(r, re)), re, EmptyPiece), end, At(c, end)), start, At(c, start));
    forall i | 0 <= i < 64
      ensures back[i] == c[i]
    {
    }
  }

  /** Castling puts the king on the destination and the rook beside it, on the king's home row; nothing else changes. */
  lemma CastlingPlacement(s: BoardState, m: PossibleMove)
    requires MoveOnBoard(s.cells, m) && IsCastling(m.mtype)
    requires CastleSquaresDistinct(s, m)
    ensures var home := HomeRow(Mover(s, m).color);
      var rs := Position(RookStartX(m.mtype), home); var re := Position(RookEndX(m.mtype), home);
      FourSquares(m.start, m.end, rs, re) && CastledFrom(s.cells, MakeState(s, m).cells, m.start, m.end, rs, re)
  {
    var home := HomeRow(Mover(s, m).color);
    CastleSteps(s.cells, m.start, m.end, Position(RookStartX(m.mtype), home), Position(RookEndX(m.mtype), home));
  }

  predicate CastleSquaresDistinct(s: BoardState, m: PossibleMove)
    requires MoveOnBoard(s.cells, m)
  {
    var home := HomeRow(Mover(s, m).color);
    var rs := Position(RookStartX(m.mtype), home);
    var re := Position(RookEndX(m.mtype), home);
    m.start != m.end && m.start != rs && m.start != re && m.end != rs && m.end != re
  }

  /** What a move needs for its undo to restore the board exactly. */
  predicate Reversible(s: BoardState, m: PossibleMove)
    requires MoveOnBoard(s.cells, m)
  {
    var mover := Mover(s, m);
    m.start != m.end
    && s.currentPlayer != NoColor
    && (mover.ptype == King ==> KingPos(s, mover.color) == m.start)
    && (IsCastling(m.mtype) ==>
          CastleSquaresDistinct(s, m)
          && At(s.cells, Position(RookEndX(m.mtype), HomeRow(mover.color))) == EmptyPiece)
    && (!IsCastling(m.mtype) && EnPassant in m.mtype ==>
          Position(m.end.x, EnPassantVictimY(mover.color, m.end)) != m.start)
  }

  lemma OrdinaryCellsRoundTrip(s: BoardState, m: PossibleMove)
    requires MoveOnBoard(s.cells, m) && Reversible(s, m) && !IsCastling(m.mtype) && EnPassant !in m.mtype
    ensures UnmakeOnBoard(MovePieces(s.cells, m), UndoOf(s, m))
    ensures UnmakeCells(MovePieces(s.cells, m), UndoOf(s, m)) == s.cells
  {
    IdxInjective(m.start, m.end);
    var back := UnmakeCells(MovePieces(s.cells, m), UndoOf(s, m));
    forall i | 0 <= i < 64
      ensures back[i] == s.cells[i]
    {
    }
  }

  lemma EnPassantCellsRoundTrip(s: BoardState, m: PossibleMove)
    requires MoveOnBoard(s.cells, m) && Reversible(s, m) && !IsCastling(m.mtype) && EnPassant in m.mtype
    ensures UnmakeOnBoard(MovePieces(s.cells, m), UndoOf(s, m))
    ensures UnmakeCells(MovePieces(s.cells, m), UndoOf(s, m)) == s.cells
  {
    var v := Position(m.end.x, EnPassantVictimY(Mover(s, m).color, m.end));
    IdxInjective(m.start, m.end);
    IdxInjective(m.start, v);
    IdxInjective(m.end, v);
    var after := MovePieces(s.cells, m);
    assert At(after, m.end).color == Mover(s, m).color;
    var back := UnmakeCells(after, UndoOf(s, m));
    forall i | 0 <= i < 64
      ensures back[i] == s.cells[i]
    {
    }
  }

  lemma CastlingCellsRoundTrip(s: BoardState, m: PossibleMove)
    requires MoveOnBoard(s.cells, m) && Reversible(s, m) && IsCastling(m.mtype)
    ensures UnmakeOnBoard(MovePieces(s.cells, m), UndoOf(s, m))
    ensures UnmakeCells(MovePieces(s.cells, m), UndoOf(s, m)) == s.cells
  {
    var home := HomeRow(Mover(s, m).color);
    var rs := Position(RookStartX(m.mtype), home);
    var re := Position(RookEndX(m.mtype), home);
    CastlingPlacement(s, m);
    var after := MovePieces(s.cells, m);
    assert after[Idx(m.end)] == Mover(s, m).(hasMoved := true);
    UncastleSteps(s.cells, after, m.start, m.end, rs, re);
  }

  /** The corrected unmake undoes every kind of move: the whole state comes back. */
  lemma MakeUnmakeRoundTrip(s: BoardState, m: PossibleMove)
    requires MoveOnBoard(s.cells, m) && Reversible(s, m)
    ensures UnmakeOnBoard(MakeState(s, m).cells, UndoOf(s, m))
    ensures UnmakeState(MakeState(s, m), UndoOf(s, m)) == s
  {
    CellsRoundTrip(s, m);
    MakeStateFields(s, m);
    var r := MakeState(s, m);
    var u := UndoOf(s, m);
    var back := UnmakeState(r, u);
    assert back.cells == s.cells;
    assert back.whiteKingPos == s.whiteKingPos && back.blackKingPos == s.blackKingPos;
    assert back.currentPlayer == s.currentPlayer;
  }

  /** The squares of a reversible move come back under the corrected unmake. */
  lemma CellsRoundTrip(s: BoardState, m: PossibleMove)
    requires MoveOnBoard(s.cells, m) && Reversible(s, m)
    ensures UnmakeOnBoard(MovePieces(s.cells, m), UndoOf(s, m))
    ensures UnmakeCells(MovePieces(s.cells, m), UndoOf(s, m)) == s.cells
  {
    if IsCastling(m.mtype) {
      CastlingCellsRoundTrip(s, m);
    } else if EnPassant in m.mtype {
      EnPassantCellsRoundTrip(s, m);
    } else {
      OrdinaryCellsRoundTrip(s, m);
    }
  }

  /** The squares, king squares and side to move after makeMove. */
  lemma MakeStateFields(s: BoardState, m: PossibleMove)
    requires MoveOnBoard(s.cells, m)
    ensures MakeState(s, m).cells == MovePieces(s.cells, m)
    ensures MakeState(s, m).whiteKingPos == PlacedState(s, m).whiteKingPos
    ensures MakeState(s, m).blackKingPos == PlacedState(s, m).blackKingPos
    ensures MakeState(s, m).currentPlayer == SwitchPlayer(s.currentPlayer)
  {
  }

  /** The unmake as written restores type and colour on every square after an ordinary move or capture. */
  lemma AsWrittenOrdinaryRoundTrip(s: BoardState, m: PossibleMove)
    requires MoveOnBoard(s.cells, m) && WellFormed(s.cells) && m.start != m.end
    requires !IsCastling(m.mtype) && EnPassant !in m.mtype && PawnPromotion !in m.mtype
    requires s.currentPlayer != NoColor
    requires Mover(s, m).ptype == King ==> KingPos(s, Mover(s, m).color) == m.start
    ensures UnmakeOnBoard(MakeState(s, m).cells, UndoOf(s, m))
    ensures var back := UnmakeStateAsWritten(MakeState(s, m), UndoOf(s, m));
      && (forall q :: IsValidPosition(q) ==>
            At(back.cells, q).ptype == At(s.cells, q).ptype && At(back.cells, q).color == At(s.cells, q).color)
      && back.(cells := s.cells) == s
  {
    var back := UnmakeStateAsWritten(MakeState(s, m), UndoOf(s, m));
    forall q | IsValidPosition(q)
      ensures At(back.cells, q).ptype == At(s.cells, q).ptype && At(back.cells, q).color == At(s.cells, q).color
    {
      if q == m.end && IsEmpty(At(s.cells, q)) {
        assert At(s.cells, q) == s.cells[Idx(q)];
      }
    }
  }

  /**
   * After castling the unmake as written leaves the king on its destination
   * as well as putting it back on its start square, so the board is not the
   * one before the move unless the king's destination already held that same piece.
   */
  lemma AsWrittenCastlingUnmake(s: BoardState, m: PossibleMove)
    requires MoveOnBoard(s.cells, m) && IsCastling(m.mtype) && KingCastleGeometry(s, m)
    ensures UnmakeOnBoard(MakeState(s, m).cells, UndoOf(s, m))
    ensures var back := UnmakeStateAsWritten(MakeState(s, m), UndoOf(s, m));
      && At(back.cells, m.end) == Mover(s, m).(hasMoved := true)
      && At(back.cells, m.start) == Mover(s, m).(hasMoved := true)
      && (At(s.cells, m.end) != Mover(s, m).(hasMoved := true) ==> back != s)
  {
    var home := HomeRow(Mover(s, m).color);
    var rs := Position(RookStartX(m.mtype), home);
    var re := Position(RookEndX(m.mtype), home);
    CastlingPlacement(s, m);
    MakeStateFields(s, m);
    var k := Mover(s, m).(hasMoved := true);
    var after := MovePieces(s.cells, m);
    assert At(after, m.end) == k;
    var c1 := Put(after, m.start, k);
    PutAt(after, m.start, k, m.start);
    PutAt(after, m.start, k, m.end);
    var rx := Position(if CastlingKingside in m.mtype then 7 else 0, home);
    var ry := Position(if CastlingQueenside in m.mtype then 5 else 3, home);
    var cells := UnmakeCellsAsWritten(after, UndoOf(s, m));
    assert cells == Put(Put(c1, rx, At(c1, ry)), ry, EmptyPiece);
    AsWrittenUncastleSteps(c1, m.start, m.end, rx, ry);
    assert At(cells, m.end) == k;
  }

  /** The king goes from the e-file to the g-file (kingside) or the c-file (queenside) on its home row. */
  predicate KingCastleGeometry(s: BoardState, m: PossibleMove)
    requires IsValidPosition(m.start)
  {
    var home := HomeRow(Mover(s, m).color);
    m.start == Position(4, home) && m.end == Position(if CastlingKingside in m.mtype then 6 else 2, home)
  }

  /** The rook move of the unmake as written touches neither king square. */
  lemma AsWrittenUncastleSteps(c1: Cells, start: Position, end: Position, rx: Position, ry: Position)
    requires IsValidPosition(start) && IsValidPosition(end) && IsValidPosition(rx) && IsValidPosition(ry)
    requires start.y == end.y == rx.y == ry.y && start.x == 4 && (end.x == 6 || end.x == 2)
    requires (rx.x == 7 || rx.x == 0) && (ry.x == 5 || ry.x == 3)
    ensures var r := Put(Put(c1, rx, At(c1, ry)), ry, EmptyPiece);
      At(r, start) == At(c1, start) && At(r, end) == At(c1, end)
  {
    IdxInjective(start, rx);
    IdxInjective(start, ry);
    IdxInjective(end, rx);
    IdxInjective(end, ry);
  }

  /**
   * After en passant the unmake as written puts back, on the captured pawn's
   * square, what stood on the (empty) destination before the move: the pawn
   * is lost whenever the destination was empty and the square behind it held a piece.
   */
  lemma AsWrittenEnPassantUnmake(s: BoardState, m: PossibleMove)
    requires MoveOnBoard(s.cells, m) && Reversible(s, m) && !IsCastling(m.mtype) && EnPassant in m.mtype
    ensures UnmakeOnBoard(MakeState(s, m).cells, UndoOf(s, m))
    ensures var v := Position(m.end.x, EnPassantVictimY(Mover(s, m).color, m.end));
      var back := UnmakeStateAsWritten(MakeState(s, m), UndoOf(s, m));
      && At(back.cells, v) == At(s.cells, m.end)
      && (IsEmpty(At(s.cells, m.end)) && !IsEmpty(At(s.cells, v)) ==> back != s)
  {
    var v := Position(m.end.x, EnPassantVictimY(Mover(s, m).color, m.end));
    IdxInjective(m.start, m.end);
    IdxInjective(m.start, v);
    IdxInjective(m.end, v);
    var after := MovePieces(s.cells, m);
    assert after[Idx(m.end)] == Mover(s, m).(hasMoved := true);
    var back := UnmakeCellsAsWritten(after, UndoOf(s, m));
    assert back[Idx(v)] == s.cells[Idx(m.end)];
  }

  /** After a promotion the unmake as written puts the promoted piece, not the pawn, back on the start square. */
  lemma AsWrittenPromotionUnmake(s: BoardState, m: PossibleMove)
    requires MoveOnBoard(s.cells, m) && m.start != m.end
    requires !IsCastling(m.mtype) && EnPassant !in m.mtype && PawnPromotion in m.mtype
    ensures UnmakeOnBoard(MakeState(s, m).cells, UndoOf(s, m))
    ensures var back := UnmakeStateAsWritten(MakeState(s, m), UndoOf(s, m));
      && At(back.cells, m.start) == Piece(m.promotionPiece, Mover(s, m).color, true)
      && (m.promotionPiece != Mover(s, m).ptype ==> back != s)
  {
    IdxInjective(m.start, m.end);
    var after := MovePieces(s.cells, m);
    assert after[Idx(m.end)] == Piece(m.promotionPiece, Mover(s, m).color, true);
    var back := UnmakeCellsAsWritten(after, UndoOf(s, m));
    assert back[Idx(m.start)] == Piece(m.promotionPiece, Mover(s, m).color, true);
  }

  // ---------------------------------------------------------------
  // Properties of the movement rules and the phase
  // ---------------------------------------------------------------

  /** No move starts or ends off the board, and no piece moves to its own square. */
  lemma CanMoveGuard(s: BoardState, from: Position, to: Position, piece: PieceType, player: PlayerColor)
    requires !IsValidPosition(from) || !IsValidPosition(to) || from == to
    ensures !CanMove(s, from, to, piece, player)
  {
  }

  /** A queen moves exactly where a rook or a bishop could. */
  lemma QueenIsRookOrBishop(s: BoardState, from: Position, to: Position, player: PlayerColor)
    ensures CanMove(s, from, to, Queen, player) <==> CanMove(s, from, to, Rook, player) || CanMove(s, from, to, Bishop, player)
  {
  }

  /** A pawn steps two squares only straight ahead from its start row, over an empty square onto an empty one. */
  lemma PawnDoubleStep(s: BoardState, from: Position, to: Position, player: PlayerColor)
    requires CanMove(s, from, to, Pawn, player) && Abs(to.y - from.y) == 2
    ensures to.x == from.x
    ensures player == White ==> from.y == 6 && to.y == 4
    ensures player != White ==> from.y == 1 && to.y == 3
    ensures IsEmpty(At(s.cells, to)) && IsEmpty(At(s.cells, Position(from.x, (from.y + to.y) / 2)))
  {
  }

  /** A pawn moves diagonally only one square forward, onto an enemy piece or the en-passant target. */
  lemma PawnDiagonal(s: BoardState, from: Position, to: Position, player: PlayerColor)
    requires CanMove(s, from, to, Pawn, player) && to.x != from.x
    ensures Abs(to.x - from.x) == 1 && to.y - from.y == (if player == White then -1 else 1)
    ensures (!IsEmpty(At(s.cells, to)) && At(s.cells, to).color != player) || to == s.enPassantTarget
  {
  }

  /** Knight and king moves do not depend on what stands on the board. */
  lemma LeapersIgnoreBlockers(s: BoardState, t: BoardState, from: Position, to: Position, player: PlayerColor)
    ensures CanMove(s, from, to, Knight, player) == CanMove(t, from, to, Knight, player)
    ensures CanMove(s, from, to, King, player) == CanMove(t, from, to, King, player)
  {
  }

  /** A slider on an empty board reaches every other square on its lines. */
  lemma SlidersOnEmptyBoard(s: BoardState, from: Position, to: Position, player: PlayerColor)
    requires s.cells == EmptyCells && IsValidPosition(from) && IsValidPosition(to) && from != to
    ensures CanMove(s, from, to, Rook, player) <==> from.x == to.x || from.y == to.y
    ensures CanMove(s, from, to, Bishop, player) <==> Abs(to.x - from.x) == Abs(to.y - from.y)
  {
  }

  /** Less material never gives an earlier phase. */
  lemma PhaseMonotone(a: int, b: int)
    requires a <= b
    ensures PhaseOfMaterial(a) >= PhaseOfMaterial(b)
  {
  }

  /** isEndgame by material agrees with the endgame phase value. */
  lemma EndgameMaterialPhase(c: Cells)
    requires Material(c, White) + Material(c, Black) < 2500
    ensures IsEndgameCells(c) && GamePhaseValue(c) == 2
  {
  }

  // ---------------------------------------------------------------
  // The board object
  // ---------------------------------------------------------------

  class LightChessBoard {
    const board: array<Piece>
    var currentPlayer: PlayerColor
    var whiteKingPos: Position
    var blackKingPos: Position
    var enPassantTarget: Position
    var whiteCanCastleKingside: bool
    var whiteCanCastleQueenside: bool
    var blackCanCastleKingside: bool
    var blackCanCastleQueenside: bool
    var halfMoveClock: int
    var fullMoveNumber: int

    ghost predicate Valid()
    {
      board.Length == 64
    }

    /** The value the board holds. */
    function State(): BoardState
      reads this, board
      requires Valid()
    {
      BoardState(board[..], currentPlayer, whiteKingPos, blackKingPos, enPassantTarget,
        whiteCanCastleKingside, whiteCanCastleQueenside, blackCanCastleKingside, blackCanCastleQueenside,
        halfMoveClock, fullMoveNumber)
    }

    /** A new board is cleared. */
    constructor()
      ensures Valid() && fresh(board)
      ensures State() == ClearedState
    {
      board := new Piece[64](i => EmptyPiece);
      new;
      Clear();
    }

    /** Empties all 64 squares and resets side, king squares, en-passant target, rights and clocks. */
    method Clear()
      requires Valid()
      modifies this, board
      ensures State() == ClearedState
    {
      for x := 0 to 8
        modifies board
        invariant forall i :: 0 <= i < x * 8 ==> board[i] == EmptyPiece
      {
        for y := 0 to 8
          modifies board
          invariant forall i :: 0 <= i < x * 8 + y ==> board[i] == EmptyPiece
        {
          board[x * 8 + y] := EmptyPiece;
        }
      }
      currentPlayer := White;
      whiteKingPos := Position(4, 7);
      blackKingPos := Position(4, 0);
      enPassantTarget := NoPosition;
      whiteCanCastleKingside := true;
      whiteCanCastleQueenside := true;
      blackCanCastleKingside := true;
      blackCanCastleQueenside := true;
      halfMoveClock := 0;
      fullMoveNumber := 1;
      assert board[..] == EmptyCells;
    }

    method SetPiece(p: Position, piece: Piece)
      requires Valid() && IsValidPosition(p)
      modifies board
      ensures board[..] == Put(old(board[..]), p, piece)
    {
      board[Idx(p)] := piece;
    }

    method RemovePiece(p: Position)
      requires Valid() && IsValidPosition(p)
      modifies board
      ensures board[..] == Put(old(board[..]), p, EmptyPiece)
    {
      board[Idx(p)] := EmptyPiece;
    }

    /** Places both armies on a cleared board. */
    method InitializeStartingPosition()
      requires Valid()
      modifies this, board
      ensures State() == ClearedState.(cells := StartCells)
    {
      Clear();
      InitializePieces();
      PlaceOnCleared();
    }

    /** Puts the back ranks and pawns of both sides on rows 7, 6 (White) and 0, 1 (Black). */
    method InitializePieces()
      requires Valid()
      modifies board
      ensures board[..] == PlaceStartPieces(old(board[..]))
    {
      ghost var c := board[..];
      ghost var r := PlaceStartPieces(c);
      for x := 0 to 8
        modifies board
        invariant forall i :: 0 <= i < x * 8 ==> board[i] == r[i]
        invariant forall i :: x * 8 <= i < 64 ==> board[i] == c[i]
      {
        FileSquares(x);
        board[Idx(Position(x, 7))] := Piece(BackRankType(x), White, false);
        board[Idx(Position(x, 6))] := Piece(Pawn, White, false);
        board[Idx(Position(x, 0))] := Piece(BackRankType(x), Black, false);
        board[Idx(Position(x, 1))] := Piece(Pawn, Black, false);
      }
      assert board[..] == r;
    }

    method UpdateKingPosition(p: Position, player: PlayerColor)
      requires Valid()
      modifies this
      ensures State() == old(State()).(whiteKingPos := if player == White then p else old(whiteKingPos),
                                       blackKingPos := if player == White then old(blackKingPos) else p)
    {
      if player == White {
        whiteKingPos := p;
      } else {
        blackKingPos := p;
      }
    }

    method SetCastlingRights(player: PlayerColor, kingside: bool, queenside: bool)
      requires Valid()
      modifies this
      ensures State() == WithCastlingRights(old(State()), player, kingside, queenside)
    {
      if player == White {
        whiteCanCastleKingside := kingside;
        whiteCanCastleQueenside := queenside;
      } else {
        blackCanCastleKingside := kingside;
        blackCanCastleQueenside := queenside;
      }
    }

    /** Sets the four rights from the king and rook squares and their hasMoved marks. */
    method InferCastlingRights()
      requires Valid()
      modifies this
      ensures State() == InferRights(old(State()))
    {
      ghost var s := State();
      var whiteKing := board[Idx(Position(4, 7))];
      var blackKing := board[Idx(Position(4, 0))];
      var whiteKingsideRook := board[Idx(Position(7, 7))];
      var whiteQueensideRook := board[Idx(Position(0, 7))];
      var blackKingsideRook := board[Idx(Position(7, 0))];
      var blackQueensideRook := board[Idx(Position(0, 0))];
      var wk := Unmoved(whiteKing, King) && Unmoved(whiteKingsideRook, Rook);
      var wq := Unmoved(whiteKing, King) && Unmoved(whiteQueensideRook, Rook);
      var bk := Unmoved(blackKing, King) && Unmoved(blackKingsideRook, Rook);
      var bq := Unmoved(blackKing, King) && Unmoved(blackQueensideRook, Rook);
      assert InferRights(s) == WithCastlingRights(WithCastlingRights(s, White, wk, wq), Black, bk, bq);
      SetCastlingRights(White, wk, wq);
      SetCastlingRights(Black, bk, bq);
    }

    method ExecuteCastling(m: PossibleMove)
      requires Valid() && IsValidPosition(m.start) && IsValidPosition(m.end)
      modifies board
      ensures board[..] == CastleCells(old(board[..]), m)
    {
      ghost var c := board[..];
      var king := board[Idx(m.start)];
      assert king == At(c, m.start);
      SetPiece(m.end, king);
      RemovePiece(m.start);
      ghost var c1 := board[..];
      var y := HomeRow(king.color);
      var rookStart := Position(RookStartX(m.mtype), y);
      var rookEnd := Position(RookEndX(m.mtype), y);
      var rook := board[Idx(rookStart)];
      assert rook == At(c1, rookStart);
      SetPiece(rookEnd, rook);
      RemovePiece(rookStart);
    }

    method ExecuteEnPassant(m: PossibleMove)
      requires Valid() && MoveOnBoard(board[..], m) && !IsCastling(m.mtype) && EnPassant in m.mtype
      modifies board
      ensures board[..] == EnPassantCells(old(board[..]), m)
    {
      var pawn := board[Idx(m.start)];
      SetPiece(m.end, pawn);
      RemovePiece(m.start);
      RemovePiece(Position(m.end.x, EnPassantVictimY(pawn.color, m.end)));
    }

    /** The castling-rights part of updateGameState, for the piece mp found on the destination. */
    method UpdateRights(m: PossibleMove, mp: Piece)
      requires Valid()
      modifies this
      ensures State() == RightsAfter(old(State()), m, mp)
    {
      if mp.ptype == King {
        SetCastlingRights(mp.color, false, false);
      } else if mp.ptype == Rook {
        if m.start.x == 0 {
          if mp.color == White {
            whiteCanCastleQueenside := false;
          } else {
            blackCanCastleQueenside := false;
          }
        } else if m.start.x == 7 {
          if mp.color == White {
            whiteCanCastleKingside := false;
          } else {
            blackCanCastleKingside := false;
          }
        }
      }
    }

    /** Rights, en-passant target, clocks and side to move after the pieces of a move have been placed. */
    method UpdateGameState(m: PossibleMove)
      requires Valid() && IsValidPosition(m.start) && IsValidPosition(m.end)
      modifies this
      ensures State() == UpdatedGameState(old(State()), m)
    {
      var movingPiece := board[Idx(m.end)];
      UpdateRights(m, movingPiece);
      enPassantTarget := NoPosition;
      if movingPiece.ptype == Pawn && Abs(m.end.y - m.start.y) == 2 {
        enPassantTarget := Position(m.start.x, (m.start.y + m.end.y) / 2);
      }
      if movingPiece.ptype == Pawn || Capture in m.mtype {
        halfMoveClock := 0;
      } else {
        halfMoveClock := halfMoveClock + 1;
      }
      if currentPlayer == Black {
        fullMoveNumber := fullMoveNumber + 1;
      }
      currentPlayer := SwitchPlayer(currentPlayer);
    }

    /** The piece placement of makeMove: castling, en passant, or a normal move with its promotion. */
    method PlaceMovedPieces(m: PossibleMove)
      requires Valid() && MoveOnBoard(board[..], m)
      modifies board
      ensures board[..] == PlacedCells(old(board[..]), m)
    {
      var movingPiece := board[Idx(m.start)];
      if IsCastling(m.mtype) {
        ExecuteCastling(m);
      } else if EnPassant in m.mtype {
        ExecuteEnPassant(m);
      } else {
        SetPiece(m.end, movingPiece);
        RemovePiece(m.start);
        if PawnPromotion in m.mtype {
          SetPiece(m.end, Piece(m.promotionPiece, movingPiece.color, true));
        }
      }
    }

    /** Plays m and returns what is needed to take it back. */
    method MakeMove(m: PossibleMove) returns (undo: MoveUndo)
      requires Valid() && MoveOnBoard(State().cells, m)
      modifies this, board
      ensures undo == UndoOf(old(State()), m)
      ensures State() == MakeState(old(State()), m)
    {
      ghost var s := State();
      var victim := EmptyPiece;
      if !IsCastling(m.mtype) && EnPassant in m.mtype {
        victim := board[Idx(Position(m.end.x, EnPassantVictimY(board[Idx(m.start)].color, m.end)))];
      }
      undo := MoveUndo(m, board[Idx(m.end)], enPassantTarget,
        whiteCanCastleKingside, whiteCanCastleQueenside, blackCanCastleKingside, blackCanCastleQueenside,
        halfMoveClock, fullMoveNumber, board[Idx(m.start)], victim);
      assert undo == UndoOf(s, m);
      PlayPieces(m);
      UpdateGameState(m);
    }

    /** The part of makeMove that moves the pieces, marks the mover and follows a king. */
    method PlayPieces(m: PossibleMove)
      requires Valid() && MoveOnBoard(State().cells, m)
      modifies this, board
      ensures State() == PlacedState(old(State()), m)
    {
      var movingPiece := board[Idx(m.start)];
      PlaceMovedPieces(m);
      if movingPiece.ptype == King {
        UpdateKingPosition(m.end, movingPiece.color);
      }
      MarkMoved(m.end);
    }

    /** Sets the hasMoved mark of the piece on p. */
    method MarkMoved(p: Position)
      requires Valid() && IsValidPosition(p)
      modifies board
      ensures board[..] == Put(old(board[..]), p, At(old(board[..]), p).(hasMoved := true))
    {
      ghost var c := board[..];
      var piece := board[Idx(p)];
      assert piece == At(c, p);
      board[Idx(p)] := piece.(hasMoved := true);
    }

    /** The squares of the corrected unmakeMove. */
    method RestoreSquares(u: MoveUndo)
      requires Valid() && UnmakeOnBoard(board[..], u)
      modifies board
      ensures board[..] == UnmakeCells(old(board[..]), u)
    {
      var m := u.move;
      var movingPiece := board[Idx(m.end)];
      if IsCastling(m.mtype) {
        var y := HomeRow(movingPiece.color);
        var rookStart := Position(RookStartX(m.mtype), y);
        var rookEnd := Position(RookEndX(m.mtype), y);
        var rook := board[Idx(rookEnd)];
        SetPiece(rookStart, rook);
        RemovePiece(rookEnd);
      } else if EnPassant in m.mtype {
        SetPiece(Position(m.end.x, EnPassantVictimY(movingPiece.color, m.end)), u.enPassantVictim);
      }
      SetPiece(m.end, u.capturedPiece);
      SetPiece(m.start, u.movingPiece);
    }

    /** Takes back the move recorded in u, restoring every square it touched. */
    method UnmakeMove(u: MoveUndo)
      requires Valid() && UnmakeOnBoard(State().cells, u)
      modifies this, board
      ensures State() == UnmakeState(old(State()), u)
    {
      ghost var s := State();
      RestoreSquares(u);
      if u.movingPiece.ptype == King {
        UpdateKingPosition(u.move.start, u.movingPiece.color);
      }
      ghost var kingMoved := u.movingPiece.ptype == King;
      assert State() == s.(cells := UnmakeCells(s.cells, u),
        whiteKingPos := if kingMoved && u.movingPiece.color == White then u.move.start else s.whiteKingPos,
        blackKingPos := if kingMoved && u.movingPiece.color != White then u.move.start else s.blackKingPos);
      RestoreGameState(u);
    }

    /** The saved en-passant target, rights and clocks come back and the side to move switches back. */
    method RestoreGameState(u: MoveUndo)
      requires Valid()
      modifies this
      ensures State() == RestoreFromUndo(old(State()), u)
    {
      enPassantTarget := u.enPassantTarget;
      whiteCanCastleKingside := u.whiteCanCastleKingside;
      whiteCanCastleQueenside := u.whiteCanCastleQueenside;
      blackCanCastleKingside := u.blackCanCastleKingside;
      blackCanCastleQueenside := u.blackCanCastleQueenside;
      halfMoveClock := u.halfMoveClock;
      fullMoveNumber := u.fullMoveNumber;
      currentPlayer := SwitchPlayer(currentPlayer);
    }

    /** The sum of PIECE_VALUES over the player's pieces. */
    method GetMaterialValue(player: PlayerColor) returns (value: int)
      requires Valid()
      ensures value == Material(State().cells, player)
    {
      ghost var c := board[..];
      value := 0;
      for x := 0 to 8
        invariant value == Material(c[..x * 8], player)
      {
        for y := 0 to 8
          invariant value == Material(c[..x * 8 + y], player)
        {
          var piece := board[x * 8 + y];
          assert piece == c[x * 8 + y];
          MaterialStep(c, x * 8 + y, player);
          if !IsEmpty(piece) && piece.color == player {
            value := value + PieceValue(piece.ptype);
          }
        }
      }
      assert c[..64] == c;
    }

    /** The number of the player's pieces; of type t only unless anyType (the two overloads). */
    method GetPieceCount(player: PlayerColor, t: PieceType, anyType: bool) returns (count: int)
      requires Valid()
      ensures count == Count(State().cells, player, t, anyType)
    {
      ghost var c := board[..];
      count := 0;
      for x := 0 to 8
        invariant count == Count(c[..x * 8], player, t, anyType)
      {
        for y := 0 to 8
          invariant count == Count(c[..x * 8 + y], player, t, anyType)
        {
          var piece := board[x * 8 + y];
          assert piece == c[x * 8 + y];
          CountStep(c, x * 8 + y, player, t, anyType);
          if !IsEmpty(piece) && piece.color == player && (anyType || piece.ptype == t) {
            count := count + 1;
          }
        }
      }
      assert c[..64] == c;
    }

    /** The squares of the player's pieces (of type t unless anyType), file by file. */
    method GetPiecePositions(player: PlayerColor, t: PieceType, anyType: bool) returns (positions: seq<Position>)
      requires Valid()
      ensures positions == Positions(State().cells, player, t, anyType)
    {
      var c: Cells := board[..];
      positions := [];
      for x := 0 to 8
        invariant positions == Positions(c[..x * 8], player, t, anyType)
      {
        positions := ScanFile(c, x, player, t, anyType, positions);
      }
      assert c[..64] == c;
    }

    /** 0, 1 or 2 for opening, middlegame and endgame, from the material of both sides. */
    method GetGamePhaseValue() returns (phase: int)
      requires Valid()
      ensures phase == GamePhaseValue(State().cells)
    {
      var white := GetMaterialValue(White);
      var black := GetMaterialValue(Black);
      var totalMaterial := white + black;
      if totalMaterial >= STARTING_MATERIAL {
        phase := 0;
      } else if totalMaterial <= ENDGAME_MATERIAL {
        phase := 2;
      } else {
        phase := 1;
      }
    }

    method IsEndgame() returns (r: bool)
      requires Valid()
      ensures r == IsEndgameCells(State().cells)
    {
      var whiteMaterial := GetMaterialValue(White);
      var blackMaterial := GetMaterialValue(Black);
      var whitePieces := GetPieceCount(White, DefaultType, true);
      var blackPieces := GetPieceCount(Black, DefaultType, true);
      r := whiteMaterial + blackMaterial < 2500 || whitePieces + blackPieces <= 12;
    }

    /** Walks from `from` towards `to` and reports whether every square strictly between is empty. */
    method IsPathClear(from: Position, to: Position) returns (clear: bool)
      requires Valid() && IsValidPosition(from) && IsValidPosition(to) && OnLine(from, to)
      ensures clear == PathClear(State().cells, from, to)
    {
      ghost var c := board[..];
      var dx := Sign(to.x - from.x);
      var dy := Sign(to.y - from.y);
      var x := from.x + dx;
      var y := from.y + dy;
      ghost var k := 1;
      while x != to.x || y != to.y
        invariant 1 <= k <= Max(1, Distance(from, to))
        invariant Position(x, y) == Step(from, to, k)
        invariant ClearBefore(c, from, to, k)
        decreases Distance(from, to) - k
      {
        StepOnBoard(from, to, k);
        if !IsEmpty(board[Idx(Position(x, y))]) {
          assert !IsEmpty(At(c, Step(from, to, k)));
          return false;
        }
        StepNext(from, to, k);
        x := x + dx;
        y := y + dy;
        k := k + 1;
      }
      if from != to {
        StepOnBoard(from, to, k);
      }
      return true;
    }

    /** Whether a piece of the given kind and colour could move from `from` to `to`, ignoring checks. */
    method CanPieceMove(from: Position, to: Position, piece: PieceType, player: PlayerColor) returns (r: bool)
      requires Valid()
      ensures r == CanMove(State(), from, to, piece, player)
    {
      if !IsValidPosition(from) || !IsValidPosition(to) || from == to {
        return false;
      }
      var dx := to.x - from.x;
      var dy := to.y - from.y;
      var absDx := Abs(dx);
      var absDy := Abs(dy);
      match piece {
        case Pawn =>
          var direction := if player == White then -1 else 1;
          r := false;
          if dx == 0 {
            if dy == direction && IsEmpty(board[Idx(to)]) {
              r := true;
            } else if dy == 2 * direction && from.y == (if player == White then 6 else 1)
                      && IsEmpty(board[Idx(to)]) && IsEmpty(board[Idx(Position(from.x, from.y + direction))]) {
              r := true;
            }
          } else if absDx == 1 && dy == direction {
            if !IsEmpty(board[Idx(to)]) && board[Idx(to)].color != player {
              r := true;
            } else if to == enPassantTarget {
              r := true;
            }
          }
        case Knight =>
          r := (absDx == 2 && absDy == 1) || (absDx == 1 && absDy == 2);
        case Bishop =>
          r := false;
          if absDx == absDy {
            r := IsPathClear(from, to);
          }
        case Rook =>
          r := false;
          if dx == 0 || dy == 0 {
            r := IsPathClear(from, to);
          }
        case Queen =>
          r := false;
          if dx == 0 || dy == 0 || absDx == absDy {
            r := IsPathClear(from, to);
          }
        case King =>
          r := absDx <= 1 && absDy <= 1;
        case DefaultType =>
          r := false;
      }
    }
  }
}
