// The CPU opponent of the bitboard engine: search depth per difficulty, the
// bounded transposition table with its node-type rules, candidate filtering
// by a score threshold, the guards of the best-move computation and the
// 32-bit range of the mate score.

module CpuSearch {
  import MoveEncoding
  import CpuPlayer

  const INF: int := 0x7fff_ffff
  /** One above the 32-bit minimum, so that negating it stays in range. */
  const NEG_INF: int := -0x8000_0000 + 1
  const INT_MIN: int := -0x8000_0000
  const FILTER_THRESHOLD: int := 50

  predicate IsInt32(v: int)
  {
    INT_MIN <= v <= INF
  }

  /** The configuration fields the search reads. */
  datatype SearchConfiguration = SearchConfiguration(
    difficulty: CpuPlayer.CPUDifficulty, maxDepth: int, enableRandomization: bool)

  datatype NodeType = Exact | LowerBound | UpperBound

  datatype TranspositionEntry = TranspositionEntry(hash: nat, depth: int, score: int, ntype: NodeType, bestMove: MoveEncoding.Move)

  datatype ScoredMove = ScoredMove(move: MoveEncoding.Move, score: int)

  /** What a probe leaves in the caller's score and best move, and whether it hit. */
  datatype Probe = Probe(hit: bool, score: int, bestMove: MoveEncoding.Move)

  // ---------------------------------------------------------------
  // Search depth
  // ---------------------------------------------------------------

  /** `getSearchDepth`. */
  function GetSearchDepth(config: SearchConfiguration): int
  {
    match config.difficulty
    case Easy => 2
    case Medium => 4
    case Hard => config.maxDepth
    case _ => 4
  }

  /** Easy searches two plies, Medium and every other level four, Hard the configured maximum. */
  lemma SearchDepthRules(config: SearchConfiguration)
    ensures config.difficulty != CpuPlayer.Hard ==> (config.difficulty == CpuPlayer.Easy <==> GetSearchDepth(config) == 2)
    ensures config.difficulty != CpuPlayer.Hard && config.difficulty != CpuPlayer.Easy ==> GetSearchDepth(config) == 4
    ensures config.difficulty == CpuPlayer.Hard ==> GetSearchDepth(config) == config.maxDepth
    ensures config.difficulty != CpuPlayer.Hard ==> GetSearchDepth(config) in {2, 4}
  {
  }

  // ---------------------------------------------------------------
  // The mate score and 32-bit range
  // ---------------------------------------------------------------

  /** Both search bounds negate into range, and so does every score between them. */
  lemma NegationSafe(v: int)
    requires NEG_INF <= v <= INF
    ensures IsInt32(-v) && -NEG_INF == INF && NEG_INF == INT_MIN + 1
  {
  }

  /** The checkmate score as written: NEG_INF less the plies searched so far. */
  function MateScoreAsWritten(maxDepth: int, depth: int): int
  {
    NEG_INF - (maxDepth - depth)
  }

  /**
   * As written, a mate two or more plies below the root leaves the 32-bit
   * range, and a mate one ply below is INT_MIN, whose negation by the caller
   * leaves it; wrapped to 32 bits, a mate six plies below the root of a
   * seven-ply search reads as a near win.
   */
  lemma MateScoreAsWrittenUnderflows(maxDepth: int, depth: int)
    ensures depth <= maxDepth - 2 ==> !IsInt32(MateScoreAsWritten(maxDepth, depth))
    ensures depth == maxDepth - 1 ==> MateScoreAsWritten(maxDepth, depth) == INT_MIN && !IsInt32(-MateScoreAsWritten(maxDepth, depth))
    ensures Wrap32(MateScoreAsWritten(7, 1)) == INF - 4
  {
  }

  /** Two's-complement wrap-around to 32 bits. */
  function Wrap32(v: int): (w: int)
    ensures IsInt32(w)
    ensures IsInt32(v) ==> w == v
    ensures (w - v) % 0x1_0000_0000 == 0
  {
    (v - INT_MIN) % 0x1_0000_0000 + INT_MIN
  }

  /** The checkmate score kept inside the range: NEG_INF plus the plies searched so far. */
  function MateScore(maxDepth: int, depth: int): int
  {
    NEG_INF + (maxDepth - depth)
  }

  /**
   * Corrected, the mate score and its negation are 32-bit for any depth within
   * the search, the score stays below every score more than the search depth
   * above NEG_INF, and a mate nearer the root (more depth remaining) is worse
   * for the mated side.
   */
  lemma MateScoreInRange(maxDepth: int, depth: int, nearer: int)
    requires 0 <= depth <= maxDepth <= 1000 && depth <= nearer <= maxDepth
    ensures IsInt32(MateScore(maxDepth, depth)) && IsInt32(-MateScore(maxDepth, depth))
    ensures NEG_INF <= MateScore(maxDepth, depth) <= NEG_INF + 1000
    ensures depth < nearer ==> MateScore(maxDepth, nearer) < MateScore(maxDepth, depth)
  {
  }

  // ---------------------------------------------------------------
  // Transposition table
  // ---------------------------------------------------------------

  /**
   * `lookupTransposition` as written: a deep-enough entry always hands back its
   * best move; an Exact entry hits with its score, an UpperBound entry hits
   * with its score at or below alpha, and a LowerBound entry at or above beta
   * hits without setting the score.
   */
  function ProbeAsWritten(table: map<nat, TranspositionEntry>, hash: nat, depth: int, alpha: int, beta: int,
                          score: int, bestMove: MoveEncoding.Move): Probe
  {
    if hash !in table || table[hash].depth < depth then Probe(false, score, bestMove)
    else
      var entry := table[hash];
      match entry.ntype
      case Exact => Probe(true, entry.score, entry.bestMove)
      case LowerBound => Probe(entry.score >= beta, score, entry.bestMove)
      case UpperBound => if entry.score <= alpha then Probe(true, entry.score, entry.bestMove) else Probe(false, score, entry.bestMove)
  }

  /**
   * As written, a LowerBound hit returns whatever the caller's score held: the
   * search then returns that value, which need not reach beta.
   */
  lemma LowerBoundHitKeepsCallerScore(hash: nat, m: MoveEncoding.Move)
    ensures var table := map[hash := TranspositionEntry(hash, 5, 300, LowerBound, m)];
            var p := ProbeAsWritten(table, hash, 3, -100, 100, 0, MoveEncoding.None);
            p.hit && p.score == 0 && p.score < 100
  {
  }

  /** `lookupTransposition` with the LowerBound hit also setting the score. */
  function ProbeTable(table: map<nat, TranspositionEntry>, hash: nat, depth: int, alpha: int, beta: int,
                      score: int, bestMove: MoveEncoding.Move): Probe
  {
    if hash !in table || table[hash].depth < depth then Probe(false, score, bestMove)
    else
      var entry := table[hash];
      match entry.ntype
      case Exact => Probe(true, entry.score, entry.bestMove)
      case LowerBound => if entry.score >= beta then Probe(true, entry.score, entry.bestMove) else Probe(false, score, entry.bestMove)
      case UpperBound => if entry.score <= alpha then Probe(true, entry.score, entry.bestMove) else Probe(false, score, entry.bestMove)
  }

  /**
   * Corrected, every hit returns the stored score, and that score proves the
   * cut it is used for; a miss keeps the caller's score, and the best move is
   * taken from any deep-enough entry.
   */
  lemma ProbeRules(table: map<nat, TranspositionEntry>, hash: nat, depth: int, alpha: int, beta: int, score: int, bestMove: MoveEncoding.Move)
    ensures var p := ProbeTable(table, hash, depth, alpha, beta, score, bestMove);
            (p.hit ==> hash in table && table[hash].depth >= depth && p.score == table[hash].score)
            && (p.hit && table[hash].ntype == LowerBound ==> p.score >= beta)
            && (p.hit && table[hash].ntype == UpperBound ==> p.score <= alpha)
            && (!p.hit ==> p.score == score)
            && (hash in table && table[hash].depth >= depth && table[hash].ntype == Exact ==> p.hit)
            && (p.bestMove == if hash in table && table[hash].depth >= depth then table[hash].bestMove else bestMove)
    ensures hash !in table || table[hash].depth < depth ==> !ProbeTable(table, hash, depth, alpha, beta, score, bestMove).hit
  {
  }

  /** The two probes differ only in the score of a LowerBound hit. */
  lemma ProbesAgreeElsewhere(table: map<nat, TranspositionEntry>, hash: nat, depth: int, alpha: int, beta: int, score: int, bestMove: MoveEncoding.Move)
    ensures ProbeAsWritten(table, hash, depth, alpha, beta, score, bestMove).hit == ProbeTable(table, hash, depth, alpha, beta, score, bestMove).hit
    ensures !(hash in table && table[hash].ntype == LowerBound) ==>
              ProbeAsWritten(table, hash, depth, alpha, beta, score, bestMove) == ProbeTable(table, hash, depth, alpha, beta, score, bestMove)
  {
  }

  // ---------------------------------------------------------------
  // Candidate filtering
  // ---------------------------------------------------------------

  /** The moves within the threshold of `bestScore`, in list order. */
  function WithinThreshold(moves: seq<ScoredMove>, bestScore: int): seq<ScoredMove>
  {
    if moves == [] then []
    else
      var rest := WithinThreshold(moves[..|moves| - 1], bestScore);
      if bestScore - moves[|moves| - 1].score <= FILTER_THRESHOLD then rest + [moves[|moves| - 1]] else rest
  }

  function Take(s: seq<ScoredMove>, n: nat): (r: seq<ScoredMove>)
    ensures |r| <= n && |r| <= |s| && r == s[..|r|]
    ensures |s| >= n ==> |r| == n
  {
    if |s| <= n then s else s[..n]
  }

  /** The kept moves come from the list, each within the threshold of the best. */
  lemma {:induction false} WithinThresholdMembers(moves: seq<ScoredMove>, bestScore: int)
    ensures forall x :: x in WithinThreshold(moves, bestScore) ==> x in moves && bestScore - x.score <= FILTER_THRESHOLD
    ensures |WithinThreshold(moves, bestScore)| <= |moves|
    ensures forall i :: 0 <= i < |moves| && bestScore - moves[i].score <= FILTER_THRESHOLD ==>
              moves[i] in WithinThreshold(moves, bestScore)
  {
    if moves != [] {
      var init := moves[..|moves| - 1];
      WithinThresholdMembers(init, bestScore);
      forall x | x in WithinThreshold(init, bestScore) ensures x in moves {
        var i :| 0 <= i < |init| && init[i] == x;
        assert moves[i] == x;
      }
      forall i | 0 <= i < |moves| && bestScore - moves[i].score <= FILTER_THRESHOLD
        ensures moves[i] in WithinThreshold(moves, bestScore)
      {
        if i < |moves| - 1 {
          assert init[i] == moves[i];
        }
      }
    }
  }

  lemma TakeCapped(a: seq<ScoredMove>, b: seq<ScoredMove>, n: nat)
    requires |a| >= n
    ensures Take(a + b, n) == Take(a, n)
  {
    assert (a + b)[..n] == a[..n];
  }

  lemma TakeGrow(a: seq<ScoredMove>, x: ScoredMove, n: nat)
    requires |a| < n
    ensures Take(a + [x], n) == a + [x]
  {
  }

  /** The reference result: the moves within the threshold of the first, the first maxCount of them. */
  function TopCandidates(moves: seq<ScoredMove>, maxCount: nat): seq<ScoredMove>
  {
    if moves == [] then [] else Take(WithinThreshold(moves, moves[0].score), maxCount)
  }

  /**
   * The threshold test as written: `bestScore - sm.score` is taken in 32-bit
   * `int`, so on two's-complement hardware the gap between a mating score and
   * a mated one wraps to a small negative number.
   */
  function WithinThresholdAsWritten(moves: seq<ScoredMove>, bestScore: int): seq<ScoredMove>
  {
    if moves == [] then []
    else
      var rest := WithinThresholdAsWritten(moves[..|moves| - 1], bestScore);
      if Wrap32(bestScore - moves[|moves| - 1].score) <= FILTER_THRESHOLD then rest + [moves[|moves| - 1]] else rest
  }

  function TopCandidatesAsWritten(moves: seq<ScoredMove>, maxCount: nat): seq<ScoredMove>
  {
    if moves == [] then [] else Take(WithinThresholdAsWritten(moves, moves[0].score), maxCount)
  }

  /**
   * As written, a move that is mated in two plies survives the filter beside
   * one that mates in two: the gap of 2^32 - 6 wraps to -6.
   */
  lemma ThresholdAsWrittenKeepsMatedMove(a: MoveEncoding.Move, b: MoveEncoding.Move)
    ensures var moves := [ScoredMove(a, INF - 2), ScoredMove(b, NEG_INF + 2)];
            TopCandidatesAsWritten(moves, 2) == moves && TopCandidates(moves, 2) == [moves[0]]
  {
    var moves := [ScoredMove(a, INF - 2), ScoredMove(b, NEG_INF + 2)];
    assert moves[..1] == [moves[0]] && moves[..1][..0] == [];
    assert Wrap32(0) == 0;
    assert WithinThresholdAsWritten(moves[..1], INF - 2) == [moves[0]];
    assert WithinThreshold(moves[..1], INF - 2) == [moves[0]];
    assert Wrap32((INF - 2) - (NEG_INF + 2)) == -6;
    assert WithinThresholdAsWritten(moves, INF - 2) == moves;
    assert WithinThreshold(moves, INF - 2) == [moves[0]];
  }

  /** Whenever every gap fits in 32 bits, the filter as written keeps exactly the moves the corrected one keeps. */
  lemma {:induction false} ThresholdsAgreeWithoutOverflow(moves: seq<ScoredMove>, bestScore: int)
    requires forall i :: 0 <= i < |moves| ==> IsInt32(bestScore - moves[i].score)
    ensures WithinThresholdAsWritten(moves, bestScore) == WithinThreshold(moves, bestScore)
  {
    if moves != [] {
      var init := moves[..|moves| - 1];
      assert forall i :: 0 <= i < |init| ==> init[i] == moves[i];
      ThresholdsAgreeWithoutOverflow(init, bestScore);
      assert IsInt32(bestScore - moves[|moves| - 1].score);
    }
  }

  /**
   * `filterTopCandidates`, corrected to take the gap without wrapping: walks the list once, stops when maxCount moves are
   * kept, and keeps each move within the threshold below the first move's score.
   */
  method FilterTopCandidates(moves: seq<ScoredMove>, maxCount: nat) returns (filtered: seq<ScoredMove>)
    ensures filtered == TopCandidates(moves, maxCount)
  {
    if moves == [] {
      return [];
    }
    var bestScore := moves[0].score;
    var threshold := FILTER_THRESHOLD;
    filtered := [];
    var i := 0;
    while i < |moves|
      invariant 0 <= i <= |moves|
      invariant filtered == Take(WithinThreshold(moves[..i], bestScore), maxCount)
    {
      if |filtered| >= maxCount {
        break;
      }
      var sm := moves[i];
      assert moves[..i + 1][..i] == moves[..i];
      if bestScore - sm.score <= threshold {
        TakeGrow(WithinThreshold(moves[..i], bestScore), sm, maxCount);
        filtered := filtered + [sm];
      }
      i := i + 1;
    }
    if i < |moves| {
      // stopped at maxCount: the moves past i cannot change the first maxCount
      CappedSuffix(moves, i, bestScore, maxCount);
    }
    assert moves[..|moves|] == moves;
  }

  lemma {:induction false} CappedSuffix(moves: seq<ScoredMove>, i: nat, bestScore: int, maxCount: nat)
    requires i <= |moves| && |Take(WithinThreshold(moves[..i], bestScore), maxCount)| >= maxCount
    ensures Take(WithinThreshold(moves, bestScore), maxCount) == Take(WithinThreshold(moves[..i], bestScore), maxCount)
    decreases |moves| - i
  {
    if i < |moves| {
      CappedSuffix(moves, i + 1, bestScore, maxCount) by {
        var w := WithinThreshold(moves[..i], bestScore);
        assert moves[..i + 1][..i] == moves[..i];
        assert |w| >= maxCount;
        var tail := if bestScore - moves[i].score <= FILTER_THRESHOLD then [moves[i]] else [];
        assert WithinThreshold(moves[..i + 1], bestScore) == w + tail;
        TakeCapped(w, tail, maxCount);
      }
      assert moves[..i + 1][..i] == moves[..i];
      var w := WithinThreshold(moves[..i], bestScore);
      var tail := if bestScore - moves[i].score <= FILTER_THRESHOLD then [moves[i]] else [];
      assert WithinThreshold(moves[..i + 1], bestScore) == w + tail;
      TakeCapped(w, tail, maxCount);
    } else {
      assert moves[..i] == moves;
    }
  }

  /**
   * The filter keeps at most maxCount moves, all from the list and within the
   * threshold of the first; with room for one the first move is kept, and an
   * empty list gives an empty result.
   */
  lemma TopCandidatesRules(moves: seq<ScoredMove>, maxCount: nat)
    ensures |TopCandidates(moves, maxCount)| <= maxCount
    ensures moves == [] ==> TopCandidates(moves, maxCount) == []
    ensures moves != [] ==> forall x :: x in TopCandidates(moves, maxCount) ==>
              x in moves && moves[0].score - x.score <= FILTER_THRESHOLD
    ensures moves != [] && maxCount > 0 ==> |TopCandidates(moves, maxCount)| > 0 && TopCandidates(moves, maxCount)[0] == moves[0]
  {
    if moves != [] {
      var w := WithinThreshold(moves, moves[0].score);
      WithinThresholdMembers(moves, moves[0].score);
      FirstWithin(moves, moves[0].score);
      forall x | x in TopCandidates(moves, maxCount) ensures x in w {
        var t := TopCandidates(moves, maxCount);
        var i :| 0 <= i < |t| && t[i] == x;
        assert t == w[..|t|];
      }
    }
  }

  /** The first move lies within the threshold of its own score and heads the filtered list. */
  lemma {:induction false} FirstWithin(moves: seq<ScoredMove>, bestScore: int)
    requires moves != [] && bestScore - moves[0].score <= FILTER_THRESHOLD
    ensures WithinThreshold(moves, bestScore) != [] && WithinThreshold(moves, bestScore)[0] == moves[0]
  {
    if |moves| > 1 {
      var init := moves[..|moves| - 1];
      assert init[0] == moves[0];
      FirstWithin(init, bestScore);
    }
  }

  // ---------------------------------------------------------------
  // The player
  // ---------------------------------------------------------------

  class CPUPlayer {
    var config: SearchConfiguration
    var transpositionTable: map<nat, TranspositionEntry>

    ghost predicate Valid()
      reads this
    {
      |transpositionTable| <= CpuPlayer.MAX_TRANSPOSITION_ENTRIES
    }

    constructor(c: SearchConfiguration)
      ensures Valid() && config == c && transpositionTable == map[]
    {
      config := c;
      transpositionTable := map[];
    }

    /** `configure`: a new configuration starts from an empty table. */
    method Configure(c: SearchConfiguration)
      modifies this
      ensures Valid() && config == c && transpositionTable == map[]
    {
      config := c;
      ClearTranspositionTable();
    }

    method ClearTranspositionTable()
      modifies this
      ensures Valid() && transpositionTable == map[] && config == old(config)
    {
      transpositionTable := map[];
    }

    /** `storeTransposition`: a full table is emptied, then the entry is set under its hash. */
    method StoreTransposition(hash: nat, depth: int, score: int, ntype: NodeType, bestMove: MoveEncoding.Move)
      requires Valid()
      modifies this
      ensures Valid() && config == old(config)
      ensures transpositionTable == CpuPlayer.StoreInto(old(transpositionTable), hash, TranspositionEntry(hash, depth, score, ntype, bestMove))
    {
      CpuPlayer.StoreBounded(transpositionTable, hash, TranspositionEntry(hash, depth, score, ntype, bestMove));
      if |transpositionTable| >= CpuPlayer.MAX_TRANSPOSITION_ENTRIES {
        transpositionTable := map[];
      }
      transpositionTable := transpositionTable[hash := TranspositionEntry(hash, depth, score, ntype, bestMove)];
    }

    /** `lookupTransposition`, with the caller's score and best move passed in and handed back when untouched. */
    function LookupTransposition(hash: nat, depth: int, alpha: int, beta: int, score: int, bestMove: MoveEncoding.Move): Probe
      reads this
    {
      ProbeTable(transpositionTable, hash, depth, alpha, beta, score, bestMove)
    }

    /**
     * `computeBestMove`: no move gives the empty move, a single move is played
     * without a search, and otherwise the alpha-beta root search (given as
     * input) runs at the difficulty's depth.
     */
    method ComputeBestMove(legalMoves: seq<MoveEncoding.Move>, search: (seq<MoveEncoding.Move>, int) -> MoveEncoding.Move)
      returns (bestMove: MoveEncoding.Move)
      ensures |legalMoves| == 0 ==> bestMove == MoveEncoding.None
      ensures |legalMoves| == 1 ==> bestMove == legalMoves[0]
      ensures |legalMoves| >= 2 ==> bestMove == search(legalMoves, GetSearchDepth(config))
    {
      if |legalMoves| == 0 {
        return MoveEncoding.None;
      }
      if |legalMoves| == 1 {
        return legalMoves[0];
      }
      bestMove := search(legalMoves, GetSearchDepth(config));
    }
  }

  /** A stored entry is found again at its own depth with the corrected probe, whatever the window for an Exact entry. */
  lemma ProbeAfterStore(table: map<nat, TranspositionEntry>, e: TranspositionEntry, alpha: int, beta: int, score: int, m: MoveEncoding.Move)
    requires e.ntype == Exact
    ensures ProbeTable(CpuPlayer.StoreInto(table, e.hash, e), e.hash, e.depth, alpha, beta, score, m) == Probe(true, e.score, e.bestMove)
  {
  }
}
