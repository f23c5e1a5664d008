// Pseudo-legal move generation on the bitboard board: pawn pushes, captures,
// promotions and en passant, leaper and slider moves read from the attack
// tables, and castling. Moves are appended to a move list in the order the
// generator visits pieces (lowest square first) and targets.

module MoveGeneration {
  import opened BitboardTypes
  import opened AttackTables
  import opened Bitboard

  datatype MoveFlag =
    | Quiet | DoublePawnPush | KingCastle | QueenCastle | Capture | EnPassant
    | KnightPromotion | BishopPromotion | RookPromotion | QueenPromotion
    | KnightPromoCapture | BishopPromoCapture | RookPromoCapture | QueenPromoCapture

  /** A generated move: source square, target square and flag. */
  datatype GenMove = GenMove(from: int, to: int, flag: MoveFlag)

  predicate IsPushPromotion(f: MoveFlag)
  {
    f == KnightPromotion || f == BishopPromotion || f == RookPromotion || f == QueenPromotion
  }

  predicate IsPromoCapture(f: MoveFlag)
  {
    f == KnightPromoCapture || f == BishopPromoCapture || f == RookPromoCapture || f == QueenPromoCapture
  }

  /**
   * The attack-table lookups the generator calls: pawn, knight and king
   * tables indexed by square, and the slider lookups that also take the
   * occupancy of both sides.
   */
  datatype Lookups = Lookups(
    pawn: (Side, int) -> U64, knight: int -> U64, king: int -> U64,
    bishop: (int, U64) -> U64, rook: (int, U64) -> U64, queen: (int, U64) -> U64)

  function PawnAttacks(tables: Lookups, side: Side, square: int): U64 { tables.pawn(side, square) }
  function KnightAttacks(tables: Lookups, square: int): U64 { tables.knight(square) }
  function KingAttacks(tables: Lookups, square: int): U64 { tables.king(square) }
  function BishopAttacks(tables: Lookups, square: int, occ: U64): U64 { tables.bishop(square, occ) }
  function RookAttacks(tables: Lookups, square: int, occ: U64): U64 { tables.rook(square, occ) }
  function QueenAttacks(tables: Lookups, square: int, occ: U64): U64 { tables.queen(square, occ) }

  /** `(a & b) != 0`: the two boards share a square. */
  predicate Hits(a: U64, b: U64)
  {
    a & b != 0
  }

  /** `a & b`: the squares in both boards. */
  function Common(a: U64, b: U64): U64
  {
    a & b
  }

  /** `a & ~b`: the squares of `a` that are not in `b`. */
  function Without(a: U64, b: U64): U64
  {
    a & !b
  }

  /** The move list the generator appends to. */
  class MoveList {
    var moves: seq<GenMove>

    constructor()
      ensures moves == []
    {
      moves := [];
    }

    method Clear()
      modifies this
      ensures moves == []
    {
      moves := [];
    }

    method Push(m: GenMove)
      modifies this
      ensures moves == old(moves) + [m]
    {
      moves := moves + [m];
    }
  }

  // ---------------------------------------------------------------
  // Board access
  // ---------------------------------------------------------------

  /** Twelve piece boards, three occupancies, and an en-passant square that is a square or None. */
  predicate Shaped(st: BoardState)
  {
    |st.pieces| == 12 && |st.occupancies| == 3 && 0 <= st.enPassant <= 64
  }

  function Enemy(side: Side): Side
  {
    if side == White then Black else White
  }

  function BothOcc(st: BoardState): U64
    requires Shaped(st)
  {
    st.occupancies[SideIndex(Both)]
  }

  function EnemyOcc(st: BoardState, side: Side): U64
    requires Shaped(st)
  {
    st.occupancies[SideIndex(Enemy(side))]
  }

  function OwnOcc(st: BoardState, side: Side): U64
    requires Shaped(st) && side != NoSide
  {
    st.occupancies[SideIndex(side)]
  }

  // ---------------------------------------------------------------
  // Pawns
  // ---------------------------------------------------------------

  /** White pawns push toward rank 8 (index - 8), Black toward rank 1. */
  function PushDir(side: Side): int
  {
    if side == White then -8 else 8
  }

  function PawnIndex(side: Side): int
  {
    if side == White then W_PAWN else B_PAWN
  }

  /** a2..h2 for White, a7..h7 for Black. */
  predicate OnStartRank(side: Side, source: int)
  {
    if side == White then 48 <= source <= 55 else 8 <= source <= 15
  }

  /** a7..h7 for White, a2..h2 for Black: the rank a push promotes from. */
  predicate OnPromoRank(side: Side, source: int)
  {
    if side == White then 8 <= source <= 15 else 48 <= source <= 55
  }

  /** The push square of a pawn on `source` is on the board. */
  predicate CanPush(side: Side, source: int)
  {
    0 <= source < 64 && 0 <= source + PushDir(side) < 64
  }

  predicate AllCanPush(side: Side, sources: seq<int>)
  {
    forall i :: 0 <= i < |sources| ==> CanPush(side, sources[i])
  }

  /** No pawn of `side` stands on the rank it would push off the board from. */
  predicate PawnsPlaced(st: BoardState, side: Side)
    requires Shaped(st)
  {
    AllCanPush(side, SetSquares(st.pieces[PawnIndex(side)]))
  }

  /** The single push, the four promotions, or the single and double push. */
  function PushMoves(st: BoardState, side: Side, source: int): seq<GenMove>
    requires Shaped(st) && CanPush(side, source)
  {
    var target := source + PushDir(side);
    if IsSet(BothOcc(st), target) then []
    else if OnPromoRank(side, source) then
      [GenMove(source, target, QueenPromotion), GenMove(source, target, BishopPromotion),
       GenMove(source, target, RookPromotion), GenMove(source, target, KnightPromotion)]
    else
      [GenMove(source, target, Quiet)]
      + (if OnStartRank(side, source) && !IsSet(BothOcc(st), target + PushDir(side))
         then [GenMove(source, target + PushDir(side), DoublePawnPush)] else [])
  }

  function PromoCaptures(source: int, capTo: int): seq<GenMove>
  {
    [GenMove(source, capTo, QueenPromoCapture), GenMove(source, capTo, BishopPromoCapture),
     GenMove(source, capTo, RookPromoCapture), GenMove(source, capTo, KnightPromoCapture)]
  }

  /** The moves for one capture target: four promo-captures, or one capture onto the target. */
  function CaptureAt(source: int, capTo: int, promo: bool): seq<GenMove>
  {
    if promo then PromoCaptures(source, capTo) else [GenMove(source, capTo, Capture)]
  }

  /** The capture loop over the targets, lowest first. */
  function CaptureMoves(source: int, promo: bool, targets: seq<int>): seq<GenMove>
  {
    if targets == [] then []
    else CaptureMoves(source, promo, targets[..|targets| - 1]) + CaptureAt(source, targets[|targets| - 1], promo)
  }

  /** One capture target as the source writes it: an ordinary capture is recorded onto the push square `to`. */
  function CaptureAtAsWritten(source: int, to: int, capTo: int, promo: bool): seq<GenMove>
  {
    if promo then PromoCaptures(source, capTo) else [GenMove(source, to, Capture)]
  }

  function CaptureMovesAsWritten(source: int, to: int, promo: bool, targets: seq<int>): seq<GenMove>
  {
    if targets == [] then []
    else CaptureMovesAsWritten(source, to, promo, targets[..|targets| - 1]) + CaptureAtAsWritten(source, to, targets[|targets| - 1], promo)
  }

  function EnPassantMoves(st: BoardState, tables: Lookups, side: Side, source: int): seq<GenMove>
    requires Shaped(st)
  {
    if st.enPassant != SQUARE_NONE && Hits(PawnAttacks(tables, side, source), SquareBit(st.enPassant))
    then [GenMove(source, st.enPassant, EnPassant)]
    else []
  }

  /** What the pawn loop appends for the pawn on `source`. */
  function PawnMovesFrom(st: BoardState, tables: Lookups, side: Side, source: int): seq<GenMove>
    requires Shaped(st) && CanPush(side, source)
  {
    PushMoves(st, side, source)
    + CaptureMoves(source, OnPromoRank(side, source), SetSquares(Common(PawnAttacks(tables, side, source), EnemyOcc(st, side))))
    + EnPassantMoves(st, tables, side, source)
  }

  function PawnMovesOver(st: BoardState, tables: Lookups, side: Side, sources: seq<int>): seq<GenMove>
    requires Shaped(st) && AllCanPush(side, sources)
  {
    if sources == [] then []
    else PawnMovesOver(st, tables, side, sources[..|sources| - 1]) + PawnMovesFrom(st, tables, side, sources[|sources| - 1])
  }

  function PawnMoves(st: BoardState, tables: Lookups, side: Side): seq<GenMove>
    requires Shaped(st) && PawnsPlaced(st, side)
  {
    PawnMovesOver(st, tables, side, SetSquares(st.pieces[PawnIndex(side)]))
  }

  // ---------------------------------------------------------------
  // Pieces
  // ---------------------------------------------------------------

  datatype PieceKind = KnightKind | BishopKind | RookKind | QueenKind

  function PieceIndex(kind: PieceKind, side: Side): int
  {
    (if side == White then 0 else 6)
    + match kind
      case KnightKind => W_KNIGHT
      case BishopKind => W_BISHOP
      case RookKind => W_ROOK
      case QueenKind => W_QUEEN
  }

  function AttacksOf(tables: Lookups, kind: PieceKind, source: int, occBoth: U64): U64
  {
    match kind
    case KnightKind => KnightAttacks(tables, source)
    case BishopKind => BishopAttacks(tables, source, occBoth)
    case RookKind => RookAttacks(tables, source, occBoth)
    case QueenKind => QueenAttacks(tables, source, occBoth)
  }

  predicate OnBoard(targets: seq<int>)
  {
    forall i :: 0 <= i < |targets| ==> 0 <= targets[i] < 64
  }

  /** `addSlidingMoves` over the targets, lowest first: a capture onto an enemy square, else a quiet move. */
  function SlidingMoves(from: int, targets: seq<int>, enemy: U64): seq<GenMove>
    requires OnBoard(targets)
  {
    if targets == [] then []
    else
      var t := targets[|targets| - 1];
      SlidingMoves(from, targets[..|targets| - 1], enemy) + [GenMove(from, t, if IsSet(enemy, t) then Capture else Quiet)]
  }

  function PieceMovesFrom(st: BoardState, tables: Lookups, kind: PieceKind, side: Side, source: int): seq<GenMove>
    requires Shaped(st) && side != NoSide
  {
    SlidingMoves(source, SetSquares(Without(AttacksOf(tables, kind, source, BothOcc(st)), OwnOcc(st, side))), EnemyOcc(st, side))
  }

  function PieceMovesOver(st: BoardState, tables: Lookups, kind: PieceKind, side: Side, sources: seq<int>): seq<GenMove>
    requires Shaped(st) && side != NoSide
  {
    if sources == [] then []
    else PieceMovesOver(st, tables, kind, side, sources[..|sources| - 1]) + PieceMovesFrom(st, tables, kind, side, sources[|sources| - 1])
  }

  function PieceMoves(st: BoardState, tables: Lookups, kind: PieceKind, side: Side): seq<GenMove>
    requires Shaped(st) && side != NoSide
  {
    PieceMovesOver(st, tables, kind, side, SetSquares(st.pieces[PieceIndex(kind, side)]))
  }

  /** Only the lowest king square is used. */
  function KingMoves(st: BoardState, tables: Lookups, side: Side): seq<GenMove>
    requires Shaped(st) && side != NoSide
  {
    var king := st.pieces[if side == White then W_KING else B_KING];
    if king == 0 then []
    else
      var source := Lsb(king);
      SlidingMoves(source, SetSquares(Without(KingAttacks(tables, source), OwnOcc(st, side))), EnemyOcc(st, side))
  }

  // ---------------------------------------------------------------
  // Castling
  // ---------------------------------------------------------------

  /** `isSquareAttacked`: a piece of `attacker` reaches `square` (pawns looked up from the other side). */
  predicate SquareAttacked(st: BoardState, tables: Lookups, square: int, attacker: Side)
    requires Shaped(st)
  {
    var offset := if attacker == White then 0 else 6;
    var pawnSide := if attacker == White then Black else White;
    Hits(PawnAttacks(tables, pawnSide, square), st.pieces[W_PAWN + offset])
    || Hits(KnightAttacks(tables, square), st.pieces[W_KNIGHT + offset])
    || Hits(KingAttacks(tables, square), st.pieces[W_KING + offset])
    || Hits(BishopAttacks(tables, square, BothOcc(st)), st.pieces[W_BISHOP + offset])
    || Hits(RookAttacks(tables, square, BothOcc(st)), st.pieces[W_ROOK + offset])
    || Hits(QueenAttacks(tables, square, BothOcc(st)), st.pieces[W_QUEEN + offset])
  }

  /** The king's home square: e1 (60) for White, e8 (4) for Black. */
  function Home(side: Side): int
  {
    if side == White then 60 else 4
  }

  function KingsideRight(side: Side): Castling
  {
    if side == White then CASTLE_WK else CASTLE_BK
  }

  function QueensideRight(side: Side): Castling
  {
    if side == White then CASTLE_WQ else CASTLE_BQ
  }

  /** Kingside: the right is held, f and g are empty, and neither e nor f is attacked. */
  function KingsideCastle(st: BoardState, tables: Lookups, side: Side): seq<GenMove>
    requires Shaped(st)
  {
    var e := Home(side);
    if Has(st.castle, KingsideRight(side))
       && !IsSet(BothOcc(st), e + 1) && !IsSet(BothOcc(st), e + 2)
       && !SquareAttacked(st, tables, e, Enemy(side)) && !SquareAttacked(st, tables, e + 1, Enemy(side))
    then [GenMove(e, e + 2, KingCastle)] else []
  }

  /** Queenside: the right is held, d, c and b are empty, and neither e nor d is attacked. */
  function QueensideCastle(st: BoardState, tables: Lookups, side: Side): seq<GenMove>
    requires Shaped(st)
  {
    var e := Home(side);
    if Has(st.castle, QueensideRight(side))
       && !IsSet(BothOcc(st), e - 1) && !IsSet(BothOcc(st), e - 2) && !IsSet(BothOcc(st), e - 3)
       && !SquareAttacked(st, tables, e, Enemy(side)) && !SquareAttacked(st, tables, e - 1, Enemy(side))
    then [GenMove(e, e - 2, QueenCastle)] else []
  }

  function CastlingMoves(st: BoardState, tables: Lookups, side: Side): seq<GenMove>
    requires Shaped(st)
  {
    KingsideCastle(st, tables, side) + QueensideCastle(st, tables, side)
  }

  /** Everything `generateAllMoves` leaves in the list, in its order. */
  function AllMoves(st: BoardState, tables: Lookups, side: Side): seq<GenMove>
    requires Shaped(st) && side != NoSide && PawnsPlaced(st, side)
  {
    PawnMoves(st, tables, side)
    + PieceMoves(st, tables, KnightKind, side)
    + PieceMoves(st, tables, BishopKind, side)
    + PieceMoves(st, tables, RookKind, side)
    + PieceMoves(st, tables, QueenKind, side)
    + KingMoves(st, tables, side)
    + CastlingMoves(st, tables, side)
  }

  /**
   * One turn of an `lsb`/`popBit` loop over a board whose squares are the
   * rest of `listed` from `done` on: the lowest square is the next listed
   * one and the popped board lists the squares after it.
   */
  lemma PopStep(b: U64, listed: seq<int>, done: int)
    requires b != 0 && 0 <= done <= |listed| && SetSquares(b) == listed[done..]
    ensures done < |listed| && Lsb(b) == listed[done]
    ensures SetSquares(PopBit(b, Lsb(b))) == listed[done + 1..]
  {
    ZeroIffNoSquares(b);
    PopLsb(b);
    assert listed[done..][1..] == listed[done + 1..];
  }

  /** A finished `lsb`/`popBit` loop has visited every listed square. */
  lemma PopDone(b: U64, listed: seq<int>, done: int)
    requires b == 0 && 0 <= done <= |listed| && SetSquares(b) == listed[done..]
    ensures listed[..done] == listed
  {
    ZeroIffNoSquares(b);
  }

  lemma AppendAssoc<T>(a: seq<T>, b: seq<T>, c: seq<T>)
    ensures (a + b) + c == a + (b + c)
  {
  }

  lemma PrefixStep(listed: seq<int>, done: int)
    requires 0 <= done < |listed|
    ensures listed[..done + 1][..done] == listed[..done] && listed[..done + 1][done] == listed[done]
  {
  }

  /** One more pawn: the moves over the next prefix add that pawn's moves. */
  lemma PawnsOverStep(st: BoardState, tables: Lookups, side: Side, listed: seq<int>, done: int)
    requires Shaped(st) && AllCanPush(side, listed) && 0 <= done < |listed|
    ensures CanPush(side, listed[done]) && AllCanPush(side, listed[..done]) && AllCanPush(side, listed[..done + 1])
    ensures PawnMovesOver(st, tables, side, listed[..done + 1])
            == PawnMovesOver(st, tables, side, listed[..done]) + PawnMovesFrom(st, tables, side, listed[done])
  {
    PrefixStep(listed, done);
  }

  // ---------------------------------------------------------------
  // The generator
  // ---------------------------------------------------------------

  class MoveGenerator {
    const board: Chessboard
    const tables: Lookups

    constructor(board: Chessboard, tables: Lookups)
      ensures this.board == board && this.tables == tables
    {
      this.board := board;
      this.tables := tables;
    }

    /** `generateAllMoves`: the list is cleared, then each generator appends in turn. */
    method GenerateAllMoves(list: MoveList)
      requires board.Valid() && Shaped(board.State()) && board.side != NoSide && PawnsPlaced(board.State(), board.side)
      modifies list
      ensures list.moves == AllMoves(board.State(), tables, board.side)
    {
      ghost var st := board.State();
      list.Clear();
      var side := board.side;
      assert side == st.side;
      GeneratePawnMoves(list, side);
      assert list.moves == PawnMoves(st, tables, side);
      GeneratePieceMoves(list, side, KnightKind);
      GeneratePieceMoves(list, side, BishopKind);
      GeneratePieceMoves(list, side, RookKind);
      GeneratePieceMoves(list, side, QueenKind);
      GenerateKingMoves(list, side);
      GenerateCastlingMoves(list, side);
    }

    method GenerateCastlingMoves(list: MoveList, side: Side)
      requires board.Valid() && Shaped(board.State())
      modifies list
      ensures list.moves == old(list.moves) + CastlingMoves(board.State(), tables, side)
    {
      ghost var start := list.moves;
      AddKingsideCastle(list, side);
      AddQueensideCastle(list, side);
      AppendAssoc(start, KingsideCastle(board.State(), tables, side), QueensideCastle(board.State(), tables, side));
    }

    method AddKingsideCastle(list: MoveList, side: Side)
      requires board.Valid() && Shaped(board.State())
      modifies list
      ensures list.moves == old(list.moves) + KingsideCastle(board.State(), tables, side)
    {
      ghost var st := board.State();
      var rights := board.castle;
      var occ := board.occupancyBitboards[2];
      assert occ == BothOcc(st) && rights == st.castle;
      var enemy := if side == White then Black else White;
      var e := if side == White then 60 else 4;
      if Has(rights, if side == White then CASTLE_WK else CASTLE_BK) {
        if !IsSet(occ, e + 1) && !IsSet(occ, e + 2) {
          var a0 := IsSquareAttacked(e, enemy);
          if !a0 {
            var a1 := IsSquareAttacked(e + 1, enemy);
            if !a1 {
              list.Push(GenMove(e, e + 2, KingCastle));
            }
          }
        }
      }
    }

    method AddQueensideCastle(list: MoveList, side: Side)
      requires board.Valid() && Shaped(board.State())
      modifies list
      ensures list.moves == old(list.moves) + QueensideCastle(board.State(), tables, side)
    {
      ghost var st := board.State();
      var rights := board.castle;
      var occ := board.occupancyBitboards[2];
      assert occ == BothOcc(st) && rights == st.castle;
      var enemy := if side == White then Black else White;
      var e := if side == White then 60 else 4;
      if Has(rights, if side == White then CASTLE_WQ else CASTLE_BQ) {
        if !IsSet(occ, e - 1) && !IsSet(occ, e - 2) && !IsSet(occ, e - 3) {
          var a0 := IsSquareAttacked(e, enemy);
          if !a0 {
            var a1 := IsSquareAttacked(e - 1, enemy);
            if !a1 {
              list.Push(GenMove(e, e - 2, QueenCastle));
            }
          }
        }
      }
    }

    /** `isSquareAttacked`. */
    method IsSquareAttacked(square: int, attacker: Side) returns (attacked: bool)
      requires board.Valid() && Shaped(board.State())
      ensures attacked == SquareAttacked(board.State(), tables, square, attacker)
    {
      ghost var st := board.State();
      var occBoth := board.occupancyBitboards[2];
      var offset := if attacker == White then 0 else 6;
      var pawnSide := if attacker == White then Black else White;
      var pawns, knights, kings := board.bitBoards[W_PAWN + offset], board.bitBoards[W_KNIGHT + offset], board.bitBoards[W_KING + offset];
      var bishops, rooks, queens := board.bitBoards[W_BISHOP + offset], board.bitBoards[W_ROOK + offset], board.bitBoards[W_QUEEN + offset];
      assert occBoth == BothOcc(st);
      assert pawns == st.pieces[W_PAWN + offset] && knights == st.pieces[W_KNIGHT + offset] && kings == st.pieces[W_KING + offset];
      assert bishops == st.pieces[W_BISHOP + offset] && rooks == st.pieces[W_ROOK + offset] && queens == st.pieces[W_QUEEN + offset];
      attacked :=
        Hits(PawnAttacks(tables, pawnSide, square), pawns)
        || Hits(KnightAttacks(tables, square), knights)
        || Hits(KingAttacks(tables, square), kings)
        || Hits(BishopAttacks(tables, square, occBoth), bishops)
        || Hits(RookAttacks(tables, square, occBoth), rooks)
        || Hits(QueenAttacks(tables, square, occBoth), queens);
    }

    /** `generatePawnMoves`: every pawn of `side`, lowest square first. */
    method GeneratePawnMoves(list: MoveList, side: Side)
      requires board.Valid() && Shaped(board.State()) && PawnsPlaced(board.State(), side)
      modifies list
      ensures list.moves == old(list.moves) + PawnMoves(board.State(), tables, side)
    {
      ghost var st := board.State();
      var pawns := board.bitBoards[if side == White then W_PAWN else B_PAWN];
      assert pawns == st.pieces[PawnIndex(side)];
      ghost var listed := SetSquares(pawns);
      ghost var base := list.moves;
      ghost var done := 0;
      while pawns != 0
        invariant 0 <= done <= |listed| && SetSquares(pawns) == listed[done..]
        invariant list.moves == base + PawnMovesOver(st, tables, side, listed[..done])
        decreases |listed| - done
      {
        pawns, done := AddPawnMovesStep(list, side, pawns, base, listed, done);
      }
      PopDone(pawns, listed, done);
    }

    /** One turn of the pawn loop: the moves of the lowest remaining pawn. */
    method AddPawnMovesStep(list: MoveList, side: Side, pawns: U64, ghost base: seq<GenMove>, ghost listed: seq<int>, ghost done: int)
      returns (pawns': U64, ghost done': int)
      requires board.Valid() && Shaped(board.State()) && AllCanPush(side, listed)
      requires pawns != 0 && 0 <= done <= |listed| && SetSquares(pawns) == listed[done..]
      requires list.moves == base + PawnMovesOver(board.State(), tables, side, listed[..done])
      modifies list
      ensures done' == done + 1 && done' <= |listed| && SetSquares(pawns') == listed[done'..]
      ensures list.moves == base + PawnMovesOver(board.State(), tables, side, listed[..done'])
    {
      ghost var st := board.State();
      PopStep(pawns, listed, done);
      PrefixStep(listed, done);
      var source := Lsb(pawns);
      PawnsOverStep(st, tables, side, listed, done);
      AddPawnMoves(list, side, source);
      AppendAssoc(base, PawnMovesOver(st, tables, side, listed[..done]), PawnMovesFrom(st, tables, side, source));
      pawns' := PopBit(pawns, source);
      done' := done + 1;
    }

    /** The body of the pawn loop for the pawn on `source`. */
    method AddPawnMoves(list: MoveList, side: Side, source: int)
      requires board.Valid() && Shaped(board.State()) && CanPush(side, source)
      modifies list
      ensures list.moves == old(list.moves) + PawnMovesFrom(board.State(), tables, side, source)
    {
      ghost var st := board.State();
      ghost var start := list.moves;
      var occEnemy := board.occupancyBitboards[if side == White then 1 else 0];
      assert occEnemy == EnemyOcc(st, side);
      var isPromoRank := if side == White then 8 <= source <= 15 else 48 <= source <= 55;
      AddPushMoves(list, side, source);
      ghost var pushes := PushMoves(st, side, source);
      var captures := Common(PawnAttacks(tables, side, source), occEnemy);
      AddCaptureMoves(list, source, isPromoRank, captures);
      ghost var caps := CaptureMoves(source, OnPromoRank(side, source), SetSquares(captures));
      AppendAssoc(start, pushes, caps);
      AddEnPassantMove(list, side, source);
      AppendAssoc(start, pushes + caps, EnPassantMoves(st, tables, side, source));
    }

    /** The en-passant capture, when the pawn attacks the en-passant square. */
    method AddEnPassantMove(list: MoveList, side: Side, source: int)
      requires board.Valid() && Shaped(board.State())
      modifies list
      ensures list.moves == old(list.moves) + EnPassantMoves(board.State(), tables, side, source)
    {
      var epSquare := board.enPassant;
      if epSquare != SQUARE_NONE {
        if Hits(PawnAttacks(tables, side, source), SquareBit(epSquare)) {
          list.Push(GenMove(source, epSquare, EnPassant));
        }
      }
    }

    method AddPushMoves(list: MoveList, side: Side, source: int)
      requires board.Valid() && Shaped(board.State()) && CanPush(side, source)
      modifies list
      ensures list.moves == old(list.moves) + PushMoves(board.State(), side, source)
    {
      var occBoth := board.occupancyBitboards[2];
      var pushDir := if side == White then -8 else 8;
      var target := source + pushDir;
      if !IsSet(occBoth, target) {
        if (if side == White then 8 <= source <= 15 else 48 <= source <= 55) {
          list.Push(GenMove(source, target, QueenPromotion));
          list.Push(GenMove(source, target, BishopPromotion));
          list.Push(GenMove(source, target, RookPromotion));
          list.Push(GenMove(source, target, KnightPromotion));
        } else {
          list.Push(GenMove(source, target, Quiet));
          if (if side == White then 48 <= source <= 55 else 8 <= source <= 15) {
            var doublePush := target + pushDir;
            if !IsSet(occBoth, doublePush) {
              list.Push(GenMove(source, doublePush, DoublePawnPush));
            }
          }
        }
      }
    }

    /** The capture loop: every capture target, lowest first. */
    method AddCaptureMoves(list: MoveList, source: int, isPromoRank: bool, captures0: U64)
      modifies list
      ensures list.moves == old(list.moves) + CaptureMoves(source, isPromoRank, SetSquares(captures0))
    {
      var captures := captures0;
      ghost var listed := SetSquares(captures);
      ghost var base := list.moves;
      ghost var done := 0;
      while captures != 0
        invariant 0 <= done <= |listed| && SetSquares(captures) == listed[done..]
        invariant list.moves == base + CaptureMoves(source, isPromoRank, listed[..done])
        decreases |listed| - done
      {
        captures, done := AddCaptureMove(list, source, isPromoRank, captures, base, listed, done);
      }
      PopDone(captures, listed, done);
    }

    /** One turn of the capture loop. */
    method AddCaptureMove(list: MoveList, source: int, isPromoRank: bool, captures: U64, ghost base: seq<GenMove>, ghost listed: seq<int>, ghost done: int)
      returns (captures': U64, ghost done': int)
      requires captures != 0 && 0 <= done <= |listed| && SetSquares(captures) == listed[done..]
      requires list.moves == base + CaptureMoves(source, isPromoRank, listed[..done])
      modifies list
      ensures done' == done + 1 && done' <= |listed| && SetSquares(captures') == listed[done'..]
      ensures list.moves == base + CaptureMoves(source, isPromoRank, listed[..done'])
    {
      PopStep(captures, listed, done);
      PrefixStep(listed, done);
      var capTarget := Lsb(captures);
      ghost var before := CaptureMoves(source, isPromoRank, listed[..done]);
      ghost var start := list.moves;
      if isPromoRank {
        list.Push(GenMove(source, capTarget, QueenPromoCapture));
        list.Push(GenMove(source, capTarget, BishopPromoCapture));
        list.Push(GenMove(source, capTarget, RookPromoCapture));
        list.Push(GenMove(source, capTarget, KnightPromoCapture));
      } else {
        list.Push(GenMove(source, capTarget, Capture));
      }
      assert list.moves == start + CaptureAt(source, capTarget, isPromoRank);
      AppendAssoc(base, before, CaptureAt(source, capTarget, isPromoRank));
      captures' := PopBit(captures, capTarget);
      done' := done + 1;
    }

    /** `generateKnightMoves`, `generateBishopMoves`, `generateRookMoves` and `generateQueenMoves`. */
    method GeneratePieceMoves(list: MoveList, side: Side, kind: PieceKind)
      requires board.Valid() && Shaped(board.State()) && side != NoSide
      modifies list
      ensures list.moves == old(list.moves) + PieceMoves(board.State(), tables, kind, side)
    {
      ghost var st := board.State();
      var pieces := board.bitBoards[PieceIndex(kind, side)];
      var occBoth := board.occupancyBitboards[2];
      var ownOcc := board.occupancyBitboards[SideIndex(side)];
      var enemyOcc := board.occupancyBitboards[if side == White then 1 else 0];
      assert pieces == st.pieces[PieceIndex(kind, side)];
      assert occBoth == BothOcc(st) && ownOcc == OwnOcc(st, side) && enemyOcc == EnemyOcc(st, side);
      ghost var listed := SetSquares(pieces);
      ghost var base := list.moves;
      ghost var done := 0;
      while pieces != 0
        invariant 0 <= done <= |listed| && SetSquares(pieces) == listed[done..]
        invariant list.moves == base + PieceMovesOver(st, tables, kind, side, listed[..done])
        decreases |listed| - done
      {
        pieces, done := AddPieceMovesStep(list, side, kind, pieces, occBoth, ownOcc, enemyOcc, base, listed, done);
      }
      PopDone(pieces, listed, done);
    }

    /** One turn of the piece loop: the moves of the lowest remaining piece. */
    method AddPieceMovesStep(list: MoveList, side: Side, kind: PieceKind, pieces: U64, occBoth: U64, ownOcc: U64, enemyOcc: U64,
                             ghost base: seq<GenMove>, ghost listed: seq<int>, ghost done: int)
      returns (pieces': U64, ghost done': int)
      requires board.Valid() && Shaped(board.State()) && side != NoSide
      requires occBoth == BothOcc(board.State()) && ownOcc == OwnOcc(board.State(), side) && enemyOcc == EnemyOcc(board.State(), side)
      requires pieces != 0 && 0 <= done <= |listed| && SetSquares(pieces) == listed[done..]
      requires list.moves == base + PieceMovesOver(board.State(), tables, kind, side, listed[..done])
      modifies list
      ensures done' == done + 1 && done' <= |listed| && SetSquares(pieces') == listed[done'..]
      ensures list.moves == base + PieceMovesOver(board.State(), tables, kind, side, listed[..done'])
    {
      ghost var st := board.State();
      PopStep(pieces, listed, done);
      PrefixStep(listed, done);
      var source := Lsb(pieces);
      ghost var before := PieceMovesOver(st, tables, kind, side, listed[..done]);
      var attacks := Without(AttacksOf(tables, kind, source, occBoth), ownOcc);
      AddSlidingMoves(list, source, attacks, enemyOcc);
      assert list.moves == (base + before) + PieceMovesFrom(st, tables, kind, side, source);
      AppendAssoc(base, before, PieceMovesFrom(st, tables, kind, side, source));
      pieces' := PopBit(pieces, source);
      done' := done + 1;
    }

    /** `generateKingMoves`: the moves of the lowest king square, if there is a king. */
    method GenerateKingMoves(list: MoveList, side: Side)
      requires board.Valid() && Shaped(board.State()) && side != NoSide
      modifies list
      ensures list.moves == old(list.moves) + KingMoves(board.State(), tables, side)
    {
      ghost var st := board.State();
      var king := board.bitBoards[if side == White then W_KING else B_KING];
      var ownOcc := board.occupancyBitboards[SideIndex(side)];
      var enemyOcc := board.occupancyBitboards[if side == White then 1 else 0];
      assert king == st.pieces[if side == White then W_KING else B_KING];
      assert ownOcc == OwnOcc(st, side) && enemyOcc == EnemyOcc(st, side);
      if king != 0 {
        var source := Lsb(king);
        var attacks := Without(KingAttacks(tables, source), ownOcc);
        AddSlidingMoves(list, source, attacks, enemyOcc);
      }
    }

    /** `addSlidingMoves`: one move per attacked square, lowest first. */
    method AddSlidingMoves(list: MoveList, from: int, attacks0: U64, enemyOcc: U64)
      modifies list
      ensures list.moves == old(list.moves) + SlidingMoves(from, SetSquares(attacks0), enemyOcc)
    {
      var attacks := attacks0;
      ghost var listed := SetSquares(attacks);
      ghost var base := list.moves;
      ghost var done := 0;
      while attacks != 0
        invariant 0 <= done <= |listed| && SetSquares(attacks) == listed[done..]
        invariant list.moves == base + SlidingMoves(from, listed[..done], enemyOcc)
        decreases |listed| - done
      {
        attacks, done := AddSlidingMove(list, from, attacks, enemyOcc, base, listed, done);
      }
      PopDone(attacks, listed, done);
    }

    /** One turn of the `addSlidingMoves` loop. */
    method AddSlidingMove(list: MoveList, from: int, attacks: U64, enemyOcc: U64, ghost base: seq<GenMove>, ghost listed: seq<int>, ghost done: int)
      returns (attacks': U64, ghost done': int)
      requires attacks != 0 && 0 <= done <= |listed| && SetSquares(attacks) == listed[done..] && OnBoard(listed)
      requires list.moves == base + SlidingMoves(from, listed[..done], enemyOcc)
      modifies list
      ensures done' == done + 1 && done' <= |listed| && SetSquares(attacks') == listed[done'..]
      ensures list.moves == base + SlidingMoves(from, listed[..done'], enemyOcc)
    {
      PopStep(attacks, listed, done);
      PrefixStep(listed, done);
      var target := Lsb(attacks);
      ghost var before := SlidingMoves(from, listed[..done], enemyOcc);
      if IsSet(enemyOcc, target) {
        list.Push(GenMove(from, target, Capture));
      } else {
        list.Push(GenMove(from, target, Quiet));
      }
      AppendAssoc(base, before, [list.moves[|list.moves| - 1]]);
      attacks' := PopBit(attacks, target);
      done' := done + 1;
    }
  }

  // ---------------------------------------------------------------
  // Properties of the generated moves
  // ---------------------------------------------------------------

  /** A pawn whose push square is taken gets no push at all, and a free pawn always gets one. */
  lemma BlockedPawn(st: BoardState, side: Side, source: int)
    requires Shaped(st) && CanPush(side, source)
    ensures PushMoves(st, side, source) == [] <==> IsSet(BothOcc(st), source + PushDir(side))
  {
  }

  /** Every push moves the pawn to an empty square, one or two steps ahead. */
  lemma PushesOntoEmpty(st: BoardState, side: Side, source: int, m: GenMove)
    requires Shaped(st) && CanPush(side, source) && m in PushMoves(st, side, source)
    ensures m.from == source && 0 <= m.to < 64 && !IsSet(BothOcc(st), m.to)
    ensures m.to == source + PushDir(side) <==> m.flag != DoublePawnPush
    ensures m.flag == DoublePawnPush ==> m.to == source + 2 * PushDir(side)
  {
  }

  /** A free push from the promotion rank is the four promotions onto the push square, one of each. */
  lemma PromotionPushes(st: BoardState, side: Side, source: int)
    requires Shaped(st) && CanPush(side, source) && OnPromoRank(side, source)
    requires !IsSet(BothOcc(st), source + PushDir(side))
    ensures |PushMoves(st, side, source)| == 4
    ensures forall m :: m in PushMoves(st, side, source) ==> m.from == source && m.to == source + PushDir(side) && IsPushPromotion(m.flag)
    ensures forall f :: IsPushPromotion(f) ==> GenMove(source, source + PushDir(side), f) in PushMoves(st, side, source)
  {
  }

  /** The double push: from the start rank only, when both squares ahead are empty. */
  lemma DoublePushRule(st: BoardState, side: Side, source: int, m: GenMove)
    requires Shaped(st) && CanPush(side, source)
    ensures m in PushMoves(st, side, source) && m.flag == DoublePawnPush
            <==> OnStartRank(side, source)
                 && !IsSet(BothOcc(st), source + PushDir(side)) && !IsSet(BothOcc(st), source + 2 * PushDir(side))
                 && m == GenMove(source, source + 2 * PushDir(side), DoublePawnPush)
  {
  }

  /** The capture loop gives one move per target, or four on the promotion rank. */
  lemma {:induction false} CaptureMovesLength(source: int, promo: bool, targets: seq<int>)
    ensures |CaptureMoves(source, promo, targets)| == (if promo then 4 else 1) * |targets|
  {
    if targets != [] {
      CaptureMovesLength(source, promo, targets[..|targets| - 1]);
    }
  }

  /** The capture loop's moves are exactly the captures onto the targets, promo-captures on the promotion rank. */
  lemma {:induction false} CaptureMovesMembers(source: int, promo: bool, targets: seq<int>, m: GenMove)
    ensures m in CaptureMoves(source, promo, targets)
            <==> m.from == source && m.to in targets && (if promo then IsPromoCapture(m.flag) else m.flag == Capture)
  {
    if targets != [] {
      var front := targets[..|targets| - 1];
      CaptureMovesMembers(source, promo, front, m);
      assert targets == front + [targets[|targets| - 1]];
    }
  }

  /** The promo-captures of the k-th target are the k-th block of four. */
  lemma {:induction false} PromoCaptureBlocks(source: int, targets: seq<int>, k: int)
    requires 0 <= k < |targets|
    ensures |CaptureMoves(source, true, targets)| == 4 * |targets|
    ensures CaptureMoves(source, true, targets)[4 * k..4 * k + 4] == PromoCaptures(source, targets[k])
  {
    var front := targets[..|targets| - 1];
    CaptureMovesLength(source, true, front);
    CaptureMovesLength(source, true, targets);
    if k < |targets| - 1 {
      PromoCaptureBlocks(source, front, k);
      assert CaptureMoves(source, true, targets)[4 * k..4 * k + 4] == CaptureMoves(source, true, front)[4 * k..4 * k + 4];
    } else {
      assert CaptureMoves(source, true, targets)[4 * k..4 * k + 4] == CaptureAt(source, targets[k], true);
    }
  }

  /** The capture targets are the attacked squares that hold an enemy piece. */
  lemma PawnCaptureTargets(st: BoardState, tables: Lookups, side: Side, source: int, t: int)
    requires Shaped(st)
    ensures t in SetSquares(Common(PawnAttacks(tables, side, source), EnemyOcc(st, side)))
            <==> 0 <= t < 64 && IsSet(PawnAttacks(tables, side, source), t) && IsSet(EnemyOcc(st, side), t)
  {
    SetSquaresMembers(Common(PawnAttacks(tables, side, source), EnemyOcc(st, side)), t);
    if 0 <= t < 64 {
      CommonBits(PawnAttacks(tables, side, source), EnemyOcc(st, side), t);
    }
  }

  lemma CommonBits(a: U64, b: U64, k: int)
    requires 0 <= k < 64
    ensures IsSet(Common(a, b), k) <==> IsSet(a, k) && IsSet(b, k)
  {
    AndBits(a, b, k);
  }

  lemma WithoutBits(a: U64, b: U64, k: int)
    requires 0 <= k < 64
    ensures IsSet(Without(a, b), k) <==> IsSet(a, k) && !IsSet(b, k)
  {
    AndNotBits(a, b, k);
  }

  lemma HitsSquare(a: U64, t: int)
    requires 0 <= t < 64
    ensures Hits(a, SquareBit(t)) <==> IsSet(a, t)
  {
    MaskTest(t, a);
    assert a & SquareBit(t) == SquareBit(t) & a;
  }

  /** En passant: one move onto the en-passant square, when there is one and the pawn attacks it. */
  lemma EnPassantRule(st: BoardState, tables: Lookups, side: Side, source: int)
    requires Shaped(st)
    ensures EnPassantMoves(st, tables, side, source) != []
            <==> st.enPassant != SQUARE_NONE && IsSet(PawnAttacks(tables, side, source), st.enPassant)
    ensures forall m :: m in EnPassantMoves(st, tables, side, source) ==> m == GenMove(source, st.enPassant, EnPassant)
  {
    if st.enPassant != SQUARE_NONE {
      HitsSquare(PawnAttacks(tables, side, source), st.enPassant);
    }
  }

  /**
   * An ordinary pawn capture lands on the captured square: off the
   * promotion rank, the pawn's moves hold a capture onto `t` exactly when
   * `t` is attacked and holds an enemy piece.
   */
  lemma PawnCaptureRule(st: BoardState, tables: Lookups, side: Side, source: int, t: int)
    requires Shaped(st) && CanPush(side, source) && !OnPromoRank(side, source)
    ensures GenMove(source, t, Capture) in PawnMovesFrom(st, tables, side, source)
            <==> 0 <= t < 64 && IsSet(PawnAttacks(tables, side, source), t) && IsSet(EnemyOcc(st, side), t)
  {
    var targets := SetSquares(Common(PawnAttacks(tables, side, source), EnemyOcc(st, side)));
    CaptureMovesMembers(source, false, targets, GenMove(source, t, Capture));
    PawnCaptureTargets(st, tables, side, source, t);
    EnPassantRule(st, tables, side, source);
  }

  /** As written, every ordinary capture of the loop is recorded onto the push square `to`. */
  lemma {:induction false} CaptureAsWrittenOntoPush(source: int, to: int, targets: seq<int>, m: GenMove)
    requires m in CaptureMovesAsWritten(source, to, false, targets)
    ensures m == GenMove(source, to, Capture)
  {
    var front := targets[..|targets| - 1];
    if m !in CaptureAtAsWritten(source, to, targets[|targets| - 1], false) {
      CaptureAsWrittenOntoPush(source, to, front, m);
    }
  }

  /** So a capture onto a target other than the push square is lost, where the corrected loop keeps it. */
  lemma CaptureAsWrittenLosesTarget(source: int, to: int, targets: seq<int>, t: int)
    requires t in targets && t != to
    ensures GenMove(source, t, Capture) !in CaptureMovesAsWritten(source, to, false, targets)
    ensures GenMove(source, t, Capture) in CaptureMoves(source, false, targets)
  {
    if GenMove(source, t, Capture) in CaptureMovesAsWritten(source, to, false, targets) {
      CaptureAsWrittenOntoPush(source, to, targets, GenMove(source, t, Capture));
    }
    CaptureMovesMembers(source, false, targets, GenMove(source, t, Capture));
  }

  /** White pawn e4 (36) taking on d5 (27): as written the move is recorded as e4-e5 (36 to 28). */
  lemma CaptureAsWrittenExample()
    ensures CaptureMovesAsWritten(36, 28, false, [27]) == [GenMove(36, 28, Capture)]
    ensures CaptureMoves(36, false, [27]) == [GenMove(36, 27, Capture)]
  {
    assert [27][..0] == [];
  }

  /** `addSlidingMoves` emits one move per target. */
  lemma {:induction false} SlidingMovesLength(from: int, targets: seq<int>, enemy: U64)
    requires OnBoard(targets)
    ensures |SlidingMoves(from, targets, enemy)| == |targets|
  {
    if targets != [] {
      SlidingMovesLength(from, targets[..|targets| - 1], enemy);
    }
  }

  /** `addSlidingMoves` emits exactly the moves onto the targets: captures onto enemy squares, quiet moves elsewhere. */
  lemma {:induction false} SlidingMovesMembers(from: int, targets: seq<int>, enemy: U64, m: GenMove)
    requires OnBoard(targets)
    ensures m in SlidingMoves(from, targets, enemy)
            <==> m.from == from && m.to in targets && 0 <= m.to < 64
                 && m.flag == (if IsSet(enemy, m.to) then Capture else Quiet)
  {
    if targets != [] {
      var front := targets[..|targets| - 1];
      SlidingMovesMembers(from, front, enemy, m);
      assert targets == front + [targets[|targets| - 1]];
    }
  }

  /**
   * A knight, bishop, rook or queen on `source` moves to exactly the squares
   * its attack set reaches that hold no piece of its own side, capturing
   * when the square holds an enemy piece.
   */
  lemma PieceMoveRule(st: BoardState, tables: Lookups, kind: PieceKind, side: Side, source: int, m: GenMove)
    requires Shaped(st) && side != NoSide
    ensures m in PieceMovesFrom(st, tables, kind, side, source)
            <==> m.from == source && 0 <= m.to < 64
                 && IsSet(AttacksOf(tables, kind, source, BothOcc(st)), m.to) && !IsSet(OwnOcc(st, side), m.to)
                 && m.flag == (if IsSet(EnemyOcc(st, side), m.to) then Capture else Quiet)
  {
    var reach, own, enemy := AttacksOf(tables, kind, source, BothOcc(st)), OwnOcc(st, side), EnemyOcc(st, side);
    var attacks := Without(reach, own);
    assert PieceMovesFrom(st, tables, kind, side, source) == SlidingMoves(source, SetSquares(attacks), enemy);
    SlidingMovesMembers(source, SetSquares(attacks), enemy, m);
    SetSquaresMembers(attacks, m.to);
    if 0 <= m.to < 64 {
      WithoutBits(reach, own, m.to);
    }
  }

  /** Castling: the two moves, each emitted exactly when its right, empty squares and safe squares hold. */
  lemma CastlingRule(st: BoardState, tables: Lookups, side: Side)
    requires Shaped(st)
    ensures GenMove(Home(side), Home(side) + 2, KingCastle) in CastlingMoves(st, tables, side)
            <==> Has(st.castle, KingsideRight(side))
                 && !IsSet(BothOcc(st), Home(side) + 1) && !IsSet(BothOcc(st), Home(side) + 2)
                 && !SquareAttacked(st, tables, Home(side), Enemy(side))
                 && !SquareAttacked(st, tables, Home(side) + 1, Enemy(side))
    ensures GenMove(Home(side), Home(side) - 2, QueenCastle) in CastlingMoves(st, tables, side)
            <==> Has(st.castle, QueensideRight(side))
                 && !IsSet(BothOcc(st), Home(side) - 1) && !IsSet(BothOcc(st), Home(side) - 2)
                 && !IsSet(BothOcc(st), Home(side) - 3)
                 && !SquareAttacked(st, tables, Home(side), Enemy(side))
                 && !SquareAttacked(st, tables, Home(side) - 1, Enemy(side))
    ensures forall m :: m in CastlingMoves(st, tables, side) ==>
              m.from == Home(side) && (m.flag == KingCastle || m.flag == QueenCastle)
  {
  }

  /** A square that holds a piece of `side`. */
  predicate OwnPieceAt(st: BoardState, side: Side, sq: int)
    requires Shaped(st) && side != NoSide && 0 <= sq < 64
  {
    var o := if side == White then 0 else 6;
    IsSet(st.pieces[W_KING + o], sq) || IsSet(st.pieces[W_QUEEN + o], sq) || IsSet(st.pieces[W_PAWN + o], sq)
    || IsSet(st.pieces[W_KNIGHT + o], sq) || IsSet(st.pieces[W_BISHOP + o], sq) || IsSet(st.pieces[W_ROOK + o], sq)
  }

  lemma PawnMoveOrigin(st: BoardState, tables: Lookups, side: Side, source: int, m: GenMove)
    requires Shaped(st) && CanPush(side, source) && m in PawnMovesFrom(st, tables, side, source)
    ensures m.from == source
  {
    var targets := SetSquares(Common(PawnAttacks(tables, side, source), EnemyOcc(st, side)));
    CaptureMovesMembers(source, OnPromoRank(side, source), targets, m);
  }

  lemma {:induction false} PawnsOverOrigin(st: BoardState, tables: Lookups, side: Side, sources: seq<int>, m: GenMove)
    requires Shaped(st) && AllCanPush(side, sources) && m in PawnMovesOver(st, tables, side, sources)
    ensures m.from in sources
  {
    var front := sources[..|sources| - 1];
    if m in PawnMovesOver(st, tables, side, front) {
      PawnsOverOrigin(st, tables, side, front, m);
    } else {
      PawnMoveOrigin(st, tables, side, sources[|sources| - 1], m);
    }
  }

  lemma {:induction false} PiecesOverOrigin(st: BoardState, tables: Lookups, kind: PieceKind, side: Side, sources: seq<int>, m: GenMove)
    requires Shaped(st) && side != NoSide && m in PieceMovesOver(st, tables, kind, side, sources)
    ensures m.from in sources
  {
    var front := sources[..|sources| - 1];
    if m in PieceMovesOver(st, tables, kind, side, front) {
      PiecesOverOrigin(st, tables, kind, side, front, m);
    } else {
      PieceMoveRule(st, tables, kind, side, sources[|sources| - 1], m);
    }
  }

  lemma PieceMovesOrigin(st: BoardState, tables: Lookups, kind: PieceKind, side: Side, m: GenMove)
    requires Shaped(st) && side != NoSide && m in PieceMoves(st, tables, kind, side)
    ensures 0 <= m.from < 64 && IsSet(st.pieces[PieceIndex(kind, side)], m.from)
  {
    PiecesOverOrigin(st, tables, kind, side, SetSquares(st.pieces[PieceIndex(kind, side)]), m);
    SetSquaresMembers(st.pieces[PieceIndex(kind, side)], m.from);
  }

  lemma KingMovesOrigin(st: BoardState, tables: Lookups, side: Side, m: GenMove)
    requires Shaped(st) && side != NoSide && m in KingMoves(st, tables, side)
    ensures 0 <= m.from < 64 && IsSet(st.pieces[if side == White then W_KING else B_KING], m.from)
  {
    var king := st.pieces[if side == White then W_KING else B_KING];
    var source := Lsb(king);
    SlidingMovesMembers(source, SetSquares(Without(KingAttacks(tables, source), OwnOcc(st, side))), EnemyOcc(st, side), m);
  }

  /** The pawn moves start from the pawns of `side`. */
  lemma PawnMovesOrigin(st: BoardState, tables: Lookups, side: Side, m: GenMove)
    requires Shaped(st) && side != NoSide && PawnsPlaced(st, side) && m in PawnMoves(st, tables, side)
    ensures 0 <= m.from < 64 && IsSet(st.pieces[PawnIndex(side)], m.from)
  {
    PawnsOverOrigin(st, tables, side, SetSquares(st.pieces[PawnIndex(side)]), m);
    SetSquaresMembers(st.pieces[PawnIndex(side)], m.from);
  }

  /** Every generated move starts from a square holding a piece of the side to move, or is a castling move from the king's home. */
  lemma AllMovesOrigin(st: BoardState, tables: Lookups, side: Side, m: GenMove)
    requires Shaped(st) && side != NoSide && PawnsPlaced(st, side) && m in AllMoves(st, tables, side)
    ensures (0 <= m.from < 64 && OwnPieceAt(st, side, m.from))
            || (m.from == Home(side) && (m.flag == KingCastle || m.flag == QueenCastle))
  {
    var p, n, b := PawnMoves(st, tables, side), PieceMoves(st, tables, KnightKind, side), PieceMoves(st, tables, BishopKind, side);
    var r, q := PieceMoves(st, tables, RookKind, side), PieceMoves(st, tables, QueenKind, side);
    var k, c := KingMoves(st, tables, side), CastlingMoves(st, tables, side);
    assert m in p + n + b + r + q + k + c;
    if m in p {
      PawnMovesOrigin(st, tables, side, m);
    } else if m in n {
      PieceMovesOrigin(st, tables, KnightKind, side, m);
    } else if m in b {
      PieceMovesOrigin(st, tables, BishopKind, side, m);
    } else if m in r {
      PieceMovesOrigin(st, tables, RookKind, side, m);
    } else if m in q {
      PieceMovesOrigin(st, tables, QueenKind, side, m);
    } else if m in k {
      KingMovesOrigin(st, tables, side, m);
    } else {
      CastlingRule(st, tables, side);
    }
  }
}
