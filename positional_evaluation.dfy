// Whole-position terms of the positional evaluator: material and mobility
// balances, pawn support, pawn majorities on the two wings and pawn chains.

module PositionalEvaluation {
  import opened ChessTypes
  import LightBoard

  const PAWN_MAJORITY_FACTOR: int := 25
  const PAWN_CHAIN_FACTOR: int := 15

  /** `getOpponent`: White faces Black, every other colour faces White. */
  function OpponentOf(player: PlayerColor): PlayerColor
  {
    if player == White then Black else White
  }

  predicate IsSide(player: PlayerColor)
  {
    player == White || player == Black
  }

  // ---------------------------------------------------------------
  // Material and mobility
  // ---------------------------------------------------------------

  /** `evaluateMaterial`: own material less the opponent's. */
  function EvaluateMaterial(c: LightBoard.Cells, player: PlayerColor): int
  {
    LightBoard.Material(c, player) - LightBoard.Material(c, OpponentOf(player))
  }

  /** `evaluateMobility`, with the number of legal moves of each colour given as input. */
  function EvaluateMobility(legalMoveCount: PlayerColor -> nat, player: PlayerColor): int
  {
    legalMoveCount(player) - legalMoveCount(OpponentOf(player))
  }

  /** Both balances change sign when the sides are swapped, and vanish for equal sides. */
  lemma BalancesAntisymmetric(c: LightBoard.Cells, legalMoveCount: PlayerColor -> nat, player: PlayerColor)
    requires IsSide(player)
    ensures EvaluateMaterial(c, OpponentOf(player)) == -EvaluateMaterial(c, player)
    ensures EvaluateMobility(legalMoveCount, OpponentOf(player)) == -EvaluateMobility(legalMoveCount, player)
    ensures EvaluateMaterial(c, player) > 0 <==> LightBoard.Material(c, player) > LightBoard.Material(c, OpponentOf(player))
  {
  }

  /** In the starting position neither side is ahead in material. */
  lemma StartMaterialEven(c: LightBoard.Cells)
    requires LightBoard.IsStartLayout(c)
    ensures EvaluateMaterial(c, White) == 0 && EvaluateMaterial(c, Black) == 0
  {
    LightBoard.StartSide(c, White);
    LightBoard.StartSide(c, Black);
  }

  // ---------------------------------------------------------------
  // Pawn support
  // ---------------------------------------------------------------

  predicate OwnPawn(piece: LightBoard.Piece, player: PlayerColor)
  {
    !LightBoard.IsEmpty(piece) && piece.ptype == Pawn && piece.color == player
  }

  /** One of the two squares diagonally behind a pawn: the row behind is +1 for White and -1 otherwise. */
  function SupportSquare(pawnPos: Position, player: PlayerColor, dx: int): Position
  {
    Position(pawnPos.x + dx, pawnPos.y + (if player == White then 1 else -1))
  }

  predicate SupportsFrom(c: LightBoard.Cells, pawnPos: Position, player: PlayerColor, dx: int)
  {
    var q := SupportSquare(pawnPos, player, dx);
    IsValidPosition(q) && OwnPawn(LightBoard.At(c, q), player)
  }

  /** The two squares diagonally behind a pawn, on or off the board. */
  function BehindDiagonals(pawnPos: Position, player: PlayerColor): set<Position>
  {
    {SupportSquare(pawnPos, player, -1), SupportSquare(pawnPos, player, 1)}
  }

  /**
   * `hasPawnSupport`: the left square first, then the right, each only when on
   * the board. A pawn is supported exactly when an own pawn stands on a board
   * square diagonally behind it; a pawn on an edge file has one such square,
   * and a pawn on its own back row has none.
   */
  function HasPawnSupport(c: LightBoard.Cells, pawnPos: Position, player: PlayerColor): (supported: bool)
    ensures supported <==> exists q :: q in BehindDiagonals(pawnPos, player) && IsValidPosition(q) && OwnPawn(LightBoard.At(c, q), player)
    ensures pawnPos.x == 0 ==> (supported <==> SupportsFrom(c, pawnPos, player, 1))
    ensures pawnPos.x == 7 ==> (supported <==> SupportsFrom(c, pawnPos, player, -1))
    ensures (player == White && pawnPos.y == 7) || (player != White && pawnPos.y == 0) ==> !supported
  {
    var left := SupportSquare(pawnPos, player, -1);
    var right := SupportSquare(pawnPos, player, 1);
    if IsValidPosition(left) && OwnPawn(LightBoard.At(c, left), player) then true
    else IsValidPosition(right) && OwnPawn(LightBoard.At(c, right), player)
  }

  /** Only the two squares behind the pawn matter: boards that agree on them give the same answer. */
  lemma SupportFrame(c: LightBoard.Cells, d: LightBoard.Cells, pawnPos: Position, player: PlayerColor)
    requires forall dx :: (dx == -1 || dx == 1) && IsValidPosition(SupportSquare(pawnPos, player, dx)) ==>
               LightBoard.At(c, SupportSquare(pawnPos, player, dx)) == LightBoard.At(d, SupportSquare(pawnPos, player, dx))
    ensures HasPawnSupport(c, pawnPos, player) == HasPawnSupport(d, pawnPos, player)
  {
    var left, right := SupportSquare(pawnPos, player, -1), SupportSquare(pawnPos, player, 1);
  }

  /** A pawn on the a-file can only be supported from the b-file; a White pawn on the first row has no support. */
  lemma SupportEdges(c: LightBoard.Cells, pawnPos: Position, player: PlayerColor)
    ensures pawnPos.x == 0 ==> (HasPawnSupport(c, pawnPos, player) <==> SupportsFrom(c, pawnPos, player, 1))
    ensures player == White && pawnPos.y == 7 ==> !HasPawnSupport(c, pawnPos, player)
  {
  }

  // ---------------------------------------------------------------
  // Pawn majority
  // ---------------------------------------------------------------

  /** The pawns of `player`, in the order the board lists them. */
  function Pawns(c: LightBoard.Cells, player: PlayerColor): seq<Position>
  {
    LightBoard.Positions(c, player, Pawn, false)
  }

  /** Number of the listed squares on the kingside files e..h. */
  function KingsideCount(pawns: seq<Position>): nat
  {
    if pawns == [] then 0
    else KingsideCount(pawns[..|pawns| - 1]) + (if pawns[|pawns| - 1].x >= 4 then 1 else 0)
  }

  /** Number of the listed squares on the queenside files a..d. */
  function QueensideCount(pawns: seq<Position>): nat
  {
    if pawns == [] then 0
    else QueensideCount(pawns[..|pawns| - 1]) + (if pawns[|pawns| - 1].x >= 4 then 0 else 1)
  }

  /** Every listed square is on exactly one wing. */
  lemma {:induction false} WingsPartition(pawns: seq<Position>)
    ensures KingsideCount(pawns) + QueensideCount(pawns) == |pawns|
  {
    if pawns != [] {
      WingsPartition(pawns[..|pawns| - 1]);
    }
  }

  /** The counting loop of `evaluatePawnMajority` for one list. */
  method CountWings(pawns: seq<Position>) returns (kingside: nat, queenside: nat)
    ensures kingside == KingsideCount(pawns) && queenside == QueensideCount(pawns)
  {
    kingside, queenside := 0, 0;
    for i := 0 to |pawns|
      invariant kingside == KingsideCount(pawns[..i]) && queenside == QueensideCount(pawns[..i])
    {
      assert pawns[..i + 1][..i] == pawns[..i];
      if pawns[i].x >= 4 {
        kingside := kingside + 1;
      } else {
        queenside := queenside + 1;
      }
    }
    assert pawns[..|pawns|] == pawns;
  }

  /** One factor for each wing where a side has more pawns, with the sign of that side. */
  function MajorityScore(ownKingside: int, ownQueenside: int, oppKingside: int, oppQueenside: int): (score: int)
    ensures -2 * PAWN_MAJORITY_FACTOR <= score <= 2 * PAWN_MAJORITY_FACTOR
  {
    (if ownKingside > oppKingside then PAWN_MAJORITY_FACTOR else 0)
    + (if ownQueenside > oppQueenside then PAWN_MAJORITY_FACTOR else 0)
    - (if oppKingside > ownKingside then PAWN_MAJORITY_FACTOR else 0)
    - (if oppQueenside > ownQueenside then PAWN_MAJORITY_FACTOR else 0)
  }

  /** Swapping the sides negates the score; equal wings score nothing; a majority on both wings scores the maximum. */
  lemma MajorityCases(ownKingside: int, ownQueenside: int, oppKingside: int, oppQueenside: int)
    ensures MajorityScore(oppKingside, oppQueenside, ownKingside, ownQueenside) == -MajorityScore(ownKingside, ownQueenside, oppKingside, oppQueenside)
    ensures ownKingside == oppKingside && ownQueenside == oppQueenside ==>
              MajorityScore(ownKingside, ownQueenside, oppKingside, oppQueenside) == 0
    ensures ownKingside > oppKingside && ownQueenside > oppQueenside ==>
              MajorityScore(ownKingside, ownQueenside, oppKingside, oppQueenside) == 2 * PAWN_MAJORITY_FACTOR
    ensures MajorityScore(ownKingside, ownQueenside, oppKingside, oppQueenside) > 0 ==>
              ownKingside > oppKingside || ownQueenside > oppQueenside
  {
  }

  /** The pawn-majority term of a board. */
  function PawnMajority(c: LightBoard.Cells, player: PlayerColor): int
  {
    var own, opp := Pawns(c, player), Pawns(c, OpponentOf(player));
    MajorityScore(KingsideCount(own), QueensideCount(own), KingsideCount(opp), QueensideCount(opp))
  }

  /** `evaluatePawnMajority`. */
  method EvaluatePawnMajority(c: LightBoard.Cells, player: PlayerColor) returns (score: int)
    ensures score == PawnMajority(c, player)
    ensures -50 <= score <= 50
  {
    var playerKingside, playerQueenside := CountWings(Pawns(c, player));
    var opponentKingside, opponentQueenside := CountWings(Pawns(c, OpponentOf(player)));
    score := MajorityScore(playerKingside, playerQueenside, opponentKingside, opponentQueenside);
  }

  /** Swapping the sides negates the pawn-majority term. */
  lemma PawnMajorityAntisymmetric(c: LightBoard.Cells, player: PlayerColor)
    requires IsSide(player)
    ensures PawnMajority(c, OpponentOf(player)) == -PawnMajority(c, player)
  {
    var own, opp := Pawns(c, player), Pawns(c, OpponentOf(player));
    MajorityCases(KingsideCount(own), QueensideCount(own), KingsideCount(opp), QueensideCount(opp));
  }

  // ---------------------------------------------------------------
  // Pawn chains
  // ---------------------------------------------------------------

  /** The forward direction of `evaluatePawnChains`: -1 for White, +1 otherwise. */
  function ChainDirection(player: PlayerColor): int
  {
    if player == White then -1 else 1
  }

  /** Distance from p to the board edge in the file direction dx. */
  function EdgeDistance(p: Position, dx: int): int
  {
    if dx == 1 then 7 - p.x else p.x
  }

  /** Number of consecutive own pawns met by walking from p diagonally (dx, dy), not counting p. */
  function Run(c: LightBoard.Cells, p: Position, dx: int, dy: int, player: PlayerColor): (n: nat)
    requires dx == 1 || dx == -1
    ensures IsValidPosition(p) ==> n <= EdgeDistance(p, dx)
    decreases EdgeDistance(p, dx) + 1
  {
    var q := Position(p.x + dx, p.y + dy);
    if !IsValidPosition(q) || !OwnPawn(LightBoard.At(c, q), player) then 0
    else 1 + Run(c, q, dx, dy, player)
  }

  /** The length of the chain through a pawn: itself, the run to the right and the run to the left. */
  function ChainLength(c: LightBoard.Cells, pawnPos: Position, player: PlayerColor): (len: nat)
    requires IsValidPosition(pawnPos)
    ensures 1 <= len <= 8
  {
    var dir := ChainDirection(player);
    1 + Run(c, pawnPos, 1, dir, player) + Run(c, pawnPos, -1, dir, player)
  }

  /** The bonus of one chain: a factor for every pawn past the second. */
  function ChainBonus(len: int): (bonus: int)
    ensures bonus >= 0
    ensures bonus > 0 <==> len >= 3
    ensures len >= 3 ==> bonus == (len - 2) * PAWN_CHAIN_FACTOR
  {
    if len >= 3 then (len - 2) * PAWN_CHAIN_FACTOR else 0
  }

  /** Sum of the chain bonuses of the listed pawns. */
  function ChainsScore(c: LightBoard.Cells, pawns: seq<Position>, player: PlayerColor): int
    requires forall p :: p in pawns ==> IsValidPosition(p)
  {
    if pawns == [] then 0
    else ChainsScore(c, pawns[..|pawns| - 1], player) + ChainBonus(ChainLength(c, pawns[|pawns| - 1], player))
  }

  /** The pawn-chain term is never negative and a chain adds at most six factors per pawn. */
  lemma {:induction false} ChainsScoreBounds(c: LightBoard.Cells, pawns: seq<Position>, player: PlayerColor)
    requires forall p :: p in pawns ==> IsValidPosition(p)
    ensures 0 <= ChainsScore(c, pawns, player) <= 6 * PAWN_CHAIN_FACTOR * |pawns|
  {
    if pawns != [] {
      var rest := pawns[..|pawns| - 1];
      assert forall p :: p in rest ==> p in pawns;
      ChainsScoreBounds(c, rest, player);
      var len := ChainLength(c, pawns[|pawns| - 1], player);
      BonusBound(len);
      BoundStep(ChainsScore(c, rest, player), ChainBonus(len), |rest|);
    }
  }

  lemma BonusBound(len: int)
    requires 1 <= len <= 8
    ensures 0 <= ChainBonus(len) <= 6 * PAWN_CHAIN_FACTOR
  {
  }

  lemma BoundStep(prev: int, bonus: int, n: nat)
    requires 0 <= prev <= 6 * PAWN_CHAIN_FACTOR * n && 0 <= bonus <= 6 * PAWN_CHAIN_FACTOR
    ensures 0 <= prev + bonus <= 6 * PAWN_CHAIN_FACTOR * (n + 1)
  {
  }

  /** A pawn with no own pawn on either forward diagonal adds nothing. */
  lemma LonePawnNoBonus(c: LightBoard.Cells, pawnPos: Position, player: PlayerColor)
    requires IsValidPosition(pawnPos)
    requires !LinksTo(c, pawnPos, 1, player) && !LinksTo(c, pawnPos, -1, player)
    ensures ChainLength(c, pawnPos, player) == 1 && ChainBonus(ChainLength(c, pawnPos, player)) == 0
  {
  }

  /** The next square of a chain walk holds an own pawn. */
  predicate LinksTo(c: LightBoard.Cells, p: Position, dx: int, player: PlayerColor)
  {
    var q := Position(p.x + dx, p.y + ChainDirection(player));
    IsValidPosition(q) && OwnPawn(LightBoard.At(c, q), player)
  }

  /** The walk of one `while (true)` loop of `evaluatePawnChains`. */
  method CountRun(c: LightBoard.Cells, pawnPos: Position, dx: int, direction: int, player: PlayerColor) returns (n: nat)
    requires IsValidPosition(pawnPos) && (dx == 1 || dx == -1)
    ensures n == Run(c, pawnPos, dx, direction, player)
  {
    n := 0;
    var checkPos := pawnPos;
    while true
      invariant IsValidPosition(checkPos)
      invariant n + Run(c, checkPos, dx, direction, player) == Run(c, pawnPos, dx, direction, player)
      decreases EdgeDistance(checkPos, dx)
    {
      var next := Position(checkPos.x + dx, checkPos.y + direction);
      if !IsValidPosition(next) {
        break;
      }
      if OwnPawn(LightBoard.At(c, next), player) {
        n := n + 1;
        checkPos := next;
      } else {
        break;
      }
    }
  }

  /** `evaluatePawnChains`. */
  method EvaluatePawnChains(c: LightBoard.Cells, player: PlayerColor) returns (score: int)
    ensures forall p :: p in Pawns(c, player) ==> IsValidPosition(p)
    ensures score == ChainsScore(c, Pawns(c, player), player)
    ensures score >= 0
  {
    var playerPawns := Pawns(c, player);
    LightBoard.PositionsExact(c, player, Pawn, false);
    score := 0;
    for i := 0 to |playerPawns|
      invariant score == ChainsScore(c, playerPawns[..i], player)
    {
      var pawnPos := playerPawns[i];
      var direction := ChainDirection(player);
      var right := CountRun(c, pawnPos, 1, direction, player);
      var left := CountRun(c, pawnPos, -1, direction, player);
      var chainLength := 1 + right + left;
      assert playerPawns[..i + 1][..i] == playerPawns[..i];
      if chainLength >= 3 {
        score := score + (chainLength - 2) * PAWN_CHAIN_FACTOR;
      }
    }
    assert playerPawns[..|playerPawns|] == playerPawns;
    ChainsScoreBounds(c, playerPawns, player);
  }
}
