// Heuristic move evaluation of the mailbox engine: the flag bonuses of the
// basic score, piece values, piece-square tables with the Black mirror, the
// material gain of a capture, the sums that make up the medium and advanced
// scores, and the geometric helpers (collinearity, centre, king zone).

module MoveEvaluation {
  import opened ChessTypes
  import LightBoard

  // ---------------------------------------------------------------
  // Constants
  // ---------------------------------------------------------------

  const PAWN_VALUE: int := 100
  const KNIGHT_VALUE: int := 320
  const BISHOP_VALUE: int := 330
  const ROOK_VALUE: int := 500
  const QUEEN_VALUE: int := 900

  const CHECKMATE_BONUS: int := 10000
  const CHECK_BONUS: int := 50
  const CAPTURE_BONUS: int := 25
  const CASTLE_BONUS: int := 60
  const PROMOTION_BONUS: int := 800
  /** The extra bonus for promoting to a queen. */
  const QUEEN_PROMOTION_BONUS: int := 100

  const OPENING_MATERIAL_THRESHOLD: int := 6000
  const OPENING_PIECE_THRESHOLD: int := 20
  const MIDDLEGAME_MATERIAL_THRESHOLD: int := 2500
  const MIDDLEGAME_PIECE_THRESHOLD: int := 12

  /** The game phases by their enum values; a cast may also produce a value with no name, such as 0. */
  const OPENING: int := 1
  const MIDDLEGAME: int := 2
  const ENDGAME: int := 3

  // ---------------------------------------------------------------
  // Basic evaluation
  // ---------------------------------------------------------------

  function Bonus(cond: bool, value: int): int
  {
    if cond then value else 0
  }

  /** `getBasicEvaluation`: one bonus per flag of the move type. */
  function BasicEvaluation(m: PossibleMove): (score: int)
    ensures 0 <= score <= CAPTURE_BONUS + CHECK_BONUS + CHECKMATE_BONUS + PROMOTION_BONUS + QUEEN_PROMOTION_BONUS + CASTLE_BONUS
    ensures Capture in m.mtype ==> score >= CAPTURE_BONUS
    ensures Checkmate in m.mtype ==> score >= CHECKMATE_BONUS
  {
    Bonus(Capture in m.mtype, CAPTURE_BONUS)
    + Bonus(Check in m.mtype, CHECK_BONUS)
    + Bonus(Checkmate in m.mtype, CHECKMATE_BONUS)
    + Bonus(PawnPromotion in m.mtype, PROMOTION_BONUS + Bonus(m.promotionPiece == Queen, QUEEN_PROMOTION_BONUS))
    + Bonus(IsCastling(m.mtype), CASTLE_BONUS)
  }

  /** Adding a flag never lowers the score; adding Capture to a non-capture raises it by the capture bonus. */
  lemma BasicMonotone(m: PossibleMove, f: MoveFlag)
    ensures BasicEvaluation(m.(mtype := m.mtype + {f})) >= BasicEvaluation(m)
    ensures f == Capture && Capture !in m.mtype ==>
              BasicEvaluation(m.(mtype := m.mtype + {f})) == BasicEvaluation(m) + CAPTURE_BONUS
  {
  }

  /** A capture scores more than a plain move, and a checkmate more than any move without one. */
  lemma BasicOrdering(a: PossibleMove, b: PossibleMove)
    ensures a.mtype == {Capture} && b.mtype == {Normal} ==> BasicEvaluation(a) > BasicEvaluation(b)
    ensures Checkmate in a.mtype && Checkmate !in b.mtype ==> BasicEvaluation(a) > BasicEvaluation(b)
  {
  }

  /** Among promotions with the same flags, the queen scores exactly the queen bonus more than the rook. */
  lemma QueenPromotionBonus(m: PossibleMove)
    requires PawnPromotion in m.mtype
    ensures BasicEvaluation(m.(promotionPiece := Queen)) == BasicEvaluation(m.(promotionPiece := Rook)) + QUEEN_PROMOTION_BONUS
  {
  }

  // ---------------------------------------------------------------
  // Piece values and the piece-square tables
  // ---------------------------------------------------------------

  /** `getPieceValue`. The king is worth nothing: its capture is checkmate. */
  function PieceValue(t: PieceType): int
  {
    match t
    case Pawn => PAWN_VALUE
    case Knight => KNIGHT_VALUE
    case Bishop => BISHOP_VALUE
    case Rook => ROOK_VALUE
    case Queen => QUEEN_VALUE
    case King => 0
    case DefaultType => 0
  }

  lemma PieceValueOrder()
    ensures PieceValue(Pawn) < PieceValue(Knight) < PieceValue(Bishop) < PieceValue(Rook) < PieceValue(Queen)
    ensures PieceValue(King) == 0 && PieceValue(DefaultType) == 0
    ensures forall t :: 0 <= PieceValue(t) <= QUEEN_VALUE
  {
  }

  /** A piece-square table from White's side: row 0 is rank 8, entry row * 8 + col. */
  type Table = t: seq<int> | |t| == 64 witness seq(64, i => 0)
  type TableRank = r: seq<int> | |r| == 8 witness seq(8, i => 0)

  /** A table from its eight rows, top row first. */
  function Rows(r0: TableRank, r1: TableRank, r2: TableRank, r3: TableRank,
                r4: TableRank, r5: TableRank, r6: TableRank, r7: TableRank): (t: Table)
    ensures forall i :: 0 <= i < 8 ==> t[i] == r0[i] && t[56 + i] == r7[i]
  {
    r0 + r1 + r2 + r3 + r4 + r5 + r6 + r7
  }

  const PAWN_TABLE_MG: Table := Rows(
    [0,   0,   0,   0,   0,   0,   0,   0],
    [50,  50,  50,  50,  50,  50,  50,  50],
    [10,  10,  20,  30,  30,  20,  10,  10],
    [5,   5,  10,  27,  27,  10,   5,   5],
    [0,   0,   0,  25,  25,   0,   0,   0],
    [5,  -5, -10,   0,   0, -10,  -5,   5],
    [5,  10,  10, -25, -25,  10,  10,   5],
    [0,   0,   0,   0,   0,   0,   0,   0])

  const PAWN_TABLE_EG: Table := Rows(
    [0,   0,   0,   0,   0,   0,   0,   0],
    [80,  80,  80,  80,  80,  80,  80,  80],
    [50,  50,  50,  50,  50,  50,  50,  50],
    [30,  30,  30,  30,  30,  30,  30,  30],
    [20,  20,  20,  20,  20,  20,  20,  20],
    [10,  10,  10,  10,  10,  10,  10,  10],
    [10,  10,  10,  10,  10,  10,  10,  10],
    [0,   0,   0,   0,   0,   0,   0,   0])

  const KNIGHT_TABLE_MG: Table := Rows(
    [-50, -40, -30, -30, -30, -30, -40, -50],
    [-40, -20,   0,   0,   0,   0, -20, -40],
    [-30,   0,  10,  15,  15,  10,   0, -30],
    [-30,   5,  15,  20,  20,  15,   5, -30],
    [-30,   0,  15,  20,  20,  15,   0, -30],
    [-30,   5,  10,  15,  15,  10,   5, -30],
    [-40, -20,   0,   5,   5,   0, -20, -40],
    [-50, -40, -30, -30, -30, -30, -40, -50])

  const KNIGHT_TABLE_EG: Table := Rows(
    [-50, -40, -30, -30, -30, -30, -40, -50],
    [-40, -20,   0,   5,   5,   0, -20, -40],
    [-30,   0,  10,  15,  15,  10,   0, -30],
    [-30,   5,  15,  20,  20,  15,   5, -30],
    [-30,   0,  15,  20,  20,  15,   0, -30],
    [-30,   5,  10,  15,  15,  10,   5, -30],
    [-40, -20,   0,   5,   5,   0, -20, -40],
    [-50, -40, -30, -30, -30, -30, -40, -50])

  const BISHOP_TABLE: Table := Rows(
    [-20, -10, -10, -10, -10, -10, -10, -20],
    [-10,   0,   0,   0,   0,   0,   0, -10],
    [-10,   0,   5,  10,  10,   5,   0, -10],
    [-10,   5,   5,  10,  10,   5,   5, -10],
    [-10,   0,  10,  10,  10,  10,   0, -10],
    [-10,  10,  10,  10,  10,  10,  10, -10],
    [-10,   5,   0,   0,   0,   0,   5, -10],
    [-20, -10, -10, -10, -10, -10, -10, -20])

  const ROOK_TABLE: Table := Rows(
    [0,   0,   0,   0,   0,   0,   0,   0],
    [5,  10,  10,  10,  10,  10,  10,   5],
    [-5,   0,   0,   0,   0,   0,   0,  -5],
    [-5,   0,   0,   0,   0,   0,   0,  -5],
    [-5,   0,   0,   0,   0,   0,   0,  -5],
    [-5,   0,   0,   0,   0,   0,   0,  -5],
    [-5,   0,   0,   0,   0,   0,   0,  -5],
    [0,   0,   0,   5,   5,   0,   0,   0])

  const QUEEN_TABLE: Table := Rows(
    [-20, -10, -10,  -5,  -5, -10, -10, -20],
    [-10,   0,   0,   0,   0,   0,   0, -10],
    [-10,   0,   5,   5,   5,   5,   0, -10],
    [-5,   0,   5,   5,   5,   5,   0,  -5],
    [0,   0,   5,   5,   5,   5,   0,  -5],
    [-10,   5,   5,   5,   5,   5,   0, -10],
    [-10,   0,   5,   0,   0,   0,   0, -10],
    [-20, -10, -10,  -5,  -5, -10, -10, -20])

  const KING_TABLE_MG: Table := Rows(
    [-30, -40, -40, -50, -50, -40, -40, -30],
    [-30, -40, -40, -50, -50, -40, -40, -30],
    [-30, -40, -40, -50, -50, -40, -40, -30],
    [-30, -40, -40, -50, -50, -40, -40, -30],
    [-20, -30, -30, -40, -40, -30, -30, -20],
    [-10, -20, -20, -20, -20, -20, -20, -10],
    [20,  20,   0,   0,   0,   0,  20,  20],
    [20,  30,  10,   0,   0,  10,  30,  20])

  const KING_TABLE_EG: Table := Rows(
    [-50, -40, -30, -20, -20, -30, -40, -50],
    [-30, -20, -10,   0,   0, -10, -20, -30],
    [-30, -10,  20,  30,  30,  20, -10, -30],
    [-30, -10,  30,  40,  40,  30, -10, -30],
    [-30, -10,  30,  40,  40,  30, -10, -30],
    [-30, -10,  20,  30,  30,  20, -10, -30],
    [-30, -30,   0,   0,   0,   0, -30, -30],
    [-50, -30, -30, -30, -30, -30, -30, -50])

  /** The table of a piece kind in a phase: pawns, knights and kings have an endgame table. */
  function TableFor(piece: PieceType, endgame: bool): Table
    requires piece != DefaultType
  {
    match piece
    case Pawn => if endgame then PAWN_TABLE_EG else PAWN_TABLE_MG
    case Knight => if endgame then KNIGHT_TABLE_EG else KNIGHT_TABLE_MG
    case Bishop => BISHOP_TABLE
    case Rook => ROOK_TABLE
    case Queen => QUEEN_TABLE
    case King => if endgame then KING_TABLE_EG else KING_TABLE_MG
  }

  /** The table row a square is read from: Black reads the table upside down. */
  function TableRow(pos: Position, player: PlayerColor): int
  {
    if player == Black then 7 - pos.y else pos.y
  }

  /**
   * `getPositionValue`, with the phase passed in as its enum value. White
   * reads its piece's table as printed, Black reads it upside down; the phase
   * only decides between the endgame table and the other one; a pawn on
   * either back rank is worth nothing.
   */
  function PositionValue(piece: PieceType, pos: Position, player: PlayerColor, phase: int): (v: int)
    ensures !IsValidPosition(pos) || piece == DefaultType ==> v == 0
    ensures IsValidPosition(pos) && piece != DefaultType && player != Black ==>
              v == TableFor(piece, phase == ENDGAME)[pos.y * 8 + pos.x]
    ensures IsValidPosition(pos) && piece != DefaultType && player == Black ==>
              v == TableFor(piece, phase == ENDGAME)[(7 - pos.y) * 8 + pos.x]
    ensures piece == Pawn && (pos.y == 0 || pos.y == 7) ==> v == 0
  {
    if !IsValidPosition(pos) || piece == DefaultType then 0
    else
      var table := TableFor(piece, phase == ENDGAME);
      var row := TableRow(pos, player);
      assert piece == Pawn && (pos.y == 0 || pos.y == 7) ==> table[row * 8 + pos.x] == 0 by {
        if piece == Pawn && (pos.y == 0 || pos.y == 7) {
          PawnBackRanks(phase == ENDGAME, pos.x);
          assert row * 8 + pos.x == pos.x || row * 8 + pos.x == 56 + pos.x;
        }
      }
      table[row * 8 + pos.x]
  }

  /** Both pawn tables are zero on their first and last rows. */
  lemma PawnBackRanks(endgame: bool, x: int)
    requires 0 <= x < 8
    ensures TableFor(Pawn, endgame)[x] == 0 && TableFor(Pawn, endgame)[56 + x] == 0
  {
  }

  /** A Black piece on a square scores what a White piece scores on the square mirrored across the middle rank. */
  lemma PositionMirror(piece: PieceType, x: int, y: int, phase: int)
    ensures PositionValue(piece, Position(x, y), Black, phase) == PositionValue(piece, Position(x, 7 - y), White, phase)
  {
    var p, q := Position(x, y), Position(x, 7 - y);
    assert IsValidPosition(p) <==> IsValidPosition(q);
    assert TableRow(p, Black) == TableRow(q, White);
  }

  /** Only the endgame phase reads the endgame tables; the other phases score alike. */
  lemma PhaseSelectsTable(piece: PieceType, pos: Position, player: PlayerColor, a: int, b: int)
    requires a != ENDGAME && b != ENDGAME
    ensures PositionValue(piece, pos, player, a) == PositionValue(piece, pos, player, b)
  {
  }

  /** The tables' own values: White's knight on e4 against the corner, and a Black pawn on e5 read as a White one on e4. */
  lemma TableSamples()
    ensures PositionValue(Knight, Position(4, 4), White, MIDDLEGAME) == 20
    ensures PositionValue(Knight, Position(0, 0), White, MIDDLEGAME) == -50
    ensures PositionValue(Pawn, Position(4, 3), Black, OPENING) == PositionValue(Pawn, Position(4, 4), White, OPENING) == 25
    ensures PositionValue(King, Position(4, 4), White, ENDGAME) == 40
  {
  }

  // ---------------------------------------------------------------
  // Game phase
  // ---------------------------------------------------------------

  /**
   * `determineGamePhase` with a light board, as written: the light board's
   * phase value (0 opening, 1 middlegame, 2 endgame) is cast straight to the
   * enum, whose values start at 1.
   */
  function PhaseFromLightValueAsWritten(value: int): int
  {
    value
  }

  /** The cast shifted onto the enum: 0, 1, 2 become Opening, MiddleGame, EndGame. */
  function PhaseFromLightValue(value: int): (phase: int)
    requires value in {0, 1, 2}
    ensures phase in {OPENING, MIDDLEGAME, ENDGAME}
  {
    value + 1
  }

  /** As written, no light board ever yields EndGame: an endgame position is read as the middlegame, and the opening as no phase. */
  lemma LightPhaseAsWrittenMisses(c: LightBoard.Cells)
    ensures PhaseFromLightValueAsWritten(LightBoard.GamePhaseValue(c)) != ENDGAME
    ensures PhaseFromLightValueAsWritten(LightBoard.GamePhaseValue(c)) !in {OPENING, MIDDLEGAME, ENDGAME}
            <==> LightBoard.GamePhaseValue(c) == 0
    ensures LightBoard.GamePhaseValue(c) == 2 ==> PhaseFromLightValueAsWritten(LightBoard.GamePhaseValue(c)) == MIDDLEGAME
    ensures LightBoard.GamePhaseValue(c) == 2 ==>
              PositionValue(King, Position(4, 4), White, PhaseFromLightValueAsWritten(LightBoard.GamePhaseValue(c))) == -40
              && PositionValue(King, Position(4, 4), White, PhaseFromLightValue(LightBoard.GamePhaseValue(c))) == 40
  {
  }

  /** The corrected cast names the light board's phase, so the endgame tables are used in an endgame. */
  lemma LightPhaseAgrees(c: LightBoard.Cells)
    ensures LightBoard.GamePhaseValue(c) in {0, 1, 2}
    ensures PhaseFromLightValue(LightBoard.GamePhaseValue(c)) == ENDGAME
            <==> LightBoard.Material(c, White) + LightBoard.Material(c, Black) <= LightBoard.ENDGAME_MATERIAL
    ensures PhaseFromLightValue(LightBoard.GamePhaseValue(c)) == OPENING
            <==> LightBoard.Material(c, White) + LightBoard.Material(c, Black) >= LightBoard.STARTING_MATERIAL
  {
  }

  /** `determineGamePhase` without a light board: thresholds on total material and piece count. */
  function PhaseOfCounts(totalMaterial: int, totalPieces: int): (phase: int)
    ensures phase in {OPENING, MIDDLEGAME, ENDGAME}
    ensures phase == ENDGAME <==> totalMaterial <= MIDDLEGAME_MATERIAL_THRESHOLD && totalPieces <= MIDDLEGAME_PIECE_THRESHOLD
    ensures phase == OPENING <==> totalMaterial > OPENING_MATERIAL_THRESHOLD || totalPieces > OPENING_PIECE_THRESHOLD
  {
    if totalMaterial > OPENING_MATERIAL_THRESHOLD || totalPieces > OPENING_PIECE_THRESHOLD then OPENING
    else if totalMaterial > MIDDLEGAME_MATERIAL_THRESHOLD || totalPieces > MIDDLEGAME_PIECE_THRESHOLD then MIDDLEGAME
    else ENDGAME
  }

  /** Less material and fewer pieces never give an earlier phase. */
  lemma PhaseOfCountsMonotone(m1: int, p1: int, m2: int, p2: int)
    requires m1 <= m2 && p1 <= p2
    ensures PhaseOfCounts(m1, p1) >= PhaseOfCounts(m2, p2)
  {
  }

  function CellValue(piece: LightBoard.Piece): int
  {
    if LightBoard.IsEmpty(piece) then 0 else PieceValue(piece.ptype)
  }

  function CellCount(piece: LightBoard.Piece): int
  {
    if LightBoard.IsEmpty(piece) then 0 else 1
  }

  /** Material of the squares of row y with file below x. */
  function RowMaterial(c: LightBoard.Cells, y: int, x: int): int
    requires 0 <= y < 8 && 0 <= x <= 8
  {
    if x == 0 then 0 else RowMaterial(c, y, x - 1) + CellValue(LightBoard.At(c, Position(x - 1, y)))
  }

  function RowPieces(c: LightBoard.Cells, y: int, x: int): int
    requires 0 <= y < 8 && 0 <= x <= 8
  {
    if x == 0 then 0 else RowPieces(c, y, x - 1) + CellCount(LightBoard.At(c, Position(x - 1, y)))
  }

  /** Material of the rows above y. */
  function BoardMaterial(c: LightBoard.Cells, y: int): int
    requires 0 <= y <= 8
  {
    if y == 0 then 0 else BoardMaterial(c, y - 1) + RowMaterial(c, y - 1, 8)
  }

  function BoardPieces(c: LightBoard.Cells, y: int): int
    requires 0 <= y <= 8
  {
    if y == 0 then 0 else BoardPieces(c, y - 1) + RowPieces(c, y - 1, 8)
  }

  /** The count loop of `determineGamePhase`: rows from the top, files left to right. */
  method CountMaterial(c: LightBoard.Cells) returns (totalMaterial: int, totalPieces: int)
    ensures totalMaterial == BoardMaterial(c, 8) && totalPieces == BoardPieces(c, 8)
  {
    totalMaterial, totalPieces := 0, 0;
    var y := 0;
    while y < 8
      invariant 0 <= y <= 8
      invariant totalMaterial == BoardMaterial(c, y) && totalPieces == BoardPieces(c, y)
    {
      var x := 0;
      while x < 8
        invariant 0 <= x <= 8
        invariant totalMaterial == BoardMaterial(c, y) + RowMaterial(c, y, x)
        invariant totalPieces == BoardPieces(c, y) + RowPieces(c, y, x)
      {
        var piece := LightBoard.At(c, Position(x, y));
        if !LightBoard.IsEmpty(piece) {
          totalMaterial := totalMaterial + PieceValue(piece.ptype);
          totalPieces := totalPieces + 1;
        }
        x := x + 1;
      }
      y := y + 1;
    }
  }

  /** `determineGamePhase` on a board without a light copy. */
  method DetermineGamePhase(c: LightBoard.Cells) returns (phase: int)
    ensures phase == PhaseOfCounts(BoardMaterial(c, 8), BoardPieces(c, 8))
  {
    var totalMaterial, totalPieces := CountMaterial(c);
    phase := PhaseOfCounts(totalMaterial, totalPieces);
  }

  lemma {:induction false} RowCountsBound(c: LightBoard.Cells, y: int, x: int)
    requires 0 <= y < 8 && 0 <= x <= 8
    ensures 0 <= RowPieces(c, y, x) <= x && 0 <= RowMaterial(c, y, x) <= QUEEN_VALUE * RowPieces(c, y, x)
  {
    if x > 0 {
      RowCountsBound(c, y, x - 1);
    }
  }

  /** The counts are between none and every square, and each piece adds at most a queen's value. */
  lemma {:induction false} BoardCountsBound(c: LightBoard.Cells, y: int)
    requires 0 <= y <= 8
    ensures 0 <= BoardPieces(c, y) <= 8 * y && 0 <= BoardMaterial(c, y) <= QUEEN_VALUE * BoardPieces(c, y)
  {
    if y > 0 {
      BoardCountsBound(c, y - 1);
      RowCountsBound(c, y - 1, 8);
    }
  }

  /** An empty board is in the endgame. */
  lemma EmptyBoardIsEndgame(c: LightBoard.Cells)
    requires forall i :: 0 <= i < 64 ==> LightBoard.IsEmpty(c[i])
    ensures PhaseOfCounts(BoardMaterial(c, 8), BoardPieces(c, 8)) == ENDGAME
  {
    EmptyRows(c, 8);
  }

  lemma {:induction false} EmptyRows(c: LightBoard.Cells, y: int)
    requires 0 <= y <= 8 && forall i :: 0 <= i < 64 ==> LightBoard.IsEmpty(c[i])
    ensures BoardMaterial(c, y) == 0 && BoardPieces(c, y) == 0
  {
    if y > 0 {
      EmptyRows(c, y - 1);
      EmptyRow(c, y - 1, 8);
    }
  }

  lemma {:induction false} EmptyRow(c: LightBoard.Cells, y: int, x: int)
    requires 0 <= y < 8 && 0 <= x <= 8 && forall i :: 0 <= i < 64 ==> LightBoard.IsEmpty(c[i])
    ensures RowMaterial(c, y, x) == 0 && RowPieces(c, y, x) == 0
  {
    if x > 0 {
      EmptyRow(c, y, x - 1);
      assert LightBoard.IsEmpty(c[LightBoard.Idx(Position(x - 1, y))]);
    }
  }

  // ---------------------------------------------------------------
  // Material and positional gain
  // ---------------------------------------------------------------

  /** `getPieceTypeFromPosition` on the light board: the type of a valid piece, else DefaultType. */
  function PieceTypeAt(c: LightBoard.Cells, pos: Position): PieceType
    requires IsValidPosition(pos)
  {
    var piece := LightBoard.At(c, pos);
    if LightBoard.IsValidPiece(piece) then piece.ptype else DefaultType
  }

  function GainOf(capturedValue: int, movingValue: int): int
  {
    capturedValue + Max(0, capturedValue - movingValue)
  }

  /**
   * `evaluateMaterialGain`: nothing for a non-capture; a capture gains at
   * least the captured value and at most twice it: exactly the captured value
   * when the capturer is worth as much, and the captured value plus the
   * difference when it is worth less.
   */
  function MaterialGain(m: PossibleMove, c: LightBoard.Cells): (gain: int)
    requires IsValidPosition(m.start) && IsValidPosition(m.end)
    ensures Capture !in m.mtype ==> gain == 0
    ensures Capture in m.mtype ==>
              var captured, moving := PieceValue(PieceTypeAt(c, m.end)), PieceValue(PieceTypeAt(c, m.start));
              captured <= gain <= 2 * captured
              && (captured <= moving ==> gain == captured)
              && (moving < captured ==> gain == 2 * captured - moving)
  {
    if Capture !in m.mtype then 0
    else GainOf(PieceValue(PieceTypeAt(c, m.end)), PieceValue(PieceTypeAt(c, m.start)))
  }

  /** A gain is never negative, at least the captured value and at most twice it; a cheaper capturer gains at least as much. */
  lemma GainBounds(captured: PieceType, moving: PieceType, cheaper: PieceType)
    requires PieceValue(cheaper) <= PieceValue(moving)
    ensures PieceValue(captured) <= GainOf(PieceValue(captured), PieceValue(moving)) <= 2 * PieceValue(captured)
    ensures GainOf(PieceValue(captured), PieceValue(cheaper)) >= GainOf(PieceValue(captured), PieceValue(moving))
    ensures PieceValue(captured) <= PieceValue(moving) ==> GainOf(PieceValue(captured), PieceValue(moving)) == PieceValue(captured)
  {
  }

  /** `evaluatePositionalGain`: the table value of the destination less that of the start, for the moving piece. */
  function PositionalGain(m: PossibleMove, player: PlayerColor, c: LightBoard.Cells, phase: int): int
    requires IsValidPosition(m.start)
  {
    var piece := PieceTypeAt(c, m.start);
    PositionValue(piece, m.end, player, phase) - PositionValue(piece, m.start, player, phase)
  }

  /**
   * The positional gain of a Black piece moving from `from` to `to` is the
   * gain of a White piece of the same type making the move mirrored across
   * the middle rank.
   */
  lemma PositionalGainMirror(piece: PieceType, from: Position, to: Position, phase: int)
    ensures PositionValue(piece, to, Black, phase) - PositionValue(piece, from, Black, phase)
            == PositionValue(piece, Position(to.x, 7 - to.y), White, phase) - PositionValue(piece, Position(from.x, 7 - from.y), White, phase)
  {
    PositionMirror(piece, to.x, to.y, phase);
    PositionMirror(piece, from.x, from.y, phase);
  }

  /** The terms of the medium and advanced scores that search the board for threats and patterns, given as inputs. */
  datatype BoardTerms = BoardTerms(
    centerControl: int, kingSafety: int, pieceActivity: int,
    tactical: int, strategic: int, threatLevel: int, defensive: int)

  /** `getMediumEvaluation`: the basic score plus material, position, centre, king safety and activity. */
  function MediumEvaluation(m: PossibleMove, player: PlayerColor, c: LightBoard.Cells, phase: int, t: BoardTerms): int
    requires IsValidPosition(m.start) && IsValidPosition(m.end)
  {
    BasicEvaluation(m) + MaterialGain(m, c) + PositionalGain(m, player, c, phase)
    + t.centerControl + t.kingSafety + t.pieceActivity
  }

  /** `getAdvancedEvaluation`: the medium score plus tactics, strategy, threats and defence. */
  function AdvancedEvaluation(m: PossibleMove, player: PlayerColor, c: LightBoard.Cells, phase: int, t: BoardTerms): int
    requires IsValidPosition(m.start) && IsValidPosition(m.end)
  {
    MediumEvaluation(m, player, c, phase, t) + t.tactical + t.strategic + t.threatLevel + t.defensive
  }

  /**
   * The layers build on each other: a quiet move that stays away from the
   * board terms scores its basic score plus its positional gain, and a
   * capture adds its material gain on top of the same move as a non-capture.
   */
  lemma EvaluationLayers(m: PossibleMove, player: PlayerColor, c: LightBoard.Cells, phase: int, t: BoardTerms)
    requires IsValidPosition(m.start) && IsValidPosition(m.end) && Capture !in m.mtype
    ensures t == BoardTerms(0, 0, 0, 0, 0, 0, 0) ==>
              AdvancedEvaluation(m, player, c, phase, t) == BasicEvaluation(m) + PositionalGain(m, player, c, phase)
    ensures MediumEvaluation(m.(mtype := m.mtype + {Capture}), player, c, phase, t)
            == MediumEvaluation(m, player, c, phase, t) + CAPTURE_BONUS
               + GainOf(PieceValue(PieceTypeAt(c, m.end)), PieceValue(PieceTypeAt(c, m.start)))
  {
  }

  // ---------------------------------------------------------------
  // Geometry
  // ---------------------------------------------------------------

  /** `areCollinear`: rank or file for a rook, a true diagonal for a bishop, either for a queen. */
  predicate AreCollinear(a: Position, b: Position, piece: PieceType)
  {
    var dx, dy := b.x - a.x, b.y - a.y;
    match piece
    case Bishop => dx != 0 && dy != 0 && Abs(dx) == Abs(dy)
    case Rook => dx == 0 || dy == 0
    case Queen => dx == 0 || dy == 0 || (dx != 0 && dy != 0 && Abs(dx) == Abs(dy))
    case _ => false
  }

  /** The queen's lines are the rook's and the bishop's, which never share a pair; the relation is symmetric. */
  lemma CollinearRules(a: Position, b: Position, piece: PieceType)
    ensures AreCollinear(a, b, Queen) <==> AreCollinear(a, b, Rook) || AreCollinear(a, b, Bishop)
    ensures !(AreCollinear(a, b, Rook) && AreCollinear(a, b, Bishop))
    ensures AreCollinear(a, b, piece) <==> AreCollinear(b, a, piece)
    ensures piece !in {Bishop, Rook, Queen} ==> !AreCollinear(a, b, piece)
    ensures AreCollinear(a, a, Rook) && !AreCollinear(a, a, Bishop)
  {
  }

  /** `isInCenter`: files c..f and rows 2..5. */
  predicate IsInCenter(pos: Position)
  {
    pos.x >= 2 && pos.x <= 5 && pos.y >= 2 && pos.y <= 5
  }

  /** `isNearKing`: within two files and two rows of the king. */
  predicate IsNearKing(pos: Position, kingPos: Position)
  {
    Abs(pos.x - kingPos.x) <= 2 && Abs(pos.y - kingPos.y) <= 2
  }

  /** The centre is a board square and is its own mirror image; the king zone is a Chebyshev ball of radius two. */
  lemma GeometryRules(pos: Position, kingPos: Position)
    ensures IsInCenter(pos) ==> IsValidPosition(pos)
    ensures IsInCenter(pos) <==> IsInCenter(Position(7 - pos.x, 7 - pos.y))
    ensures IsNearKing(pos, kingPos) <==> Max(Abs(pos.x - kingPos.x), Abs(pos.y - kingPos.y)) <= 2
    ensures IsNearKing(pos, kingPos) <==> IsNearKing(kingPos, pos)
  {
  }
}
