// The CPU opponent of the mailbox engine: configuration, candidate
// filtering, the transposition table, the minimax search over a game tree
// and the move selectors with their empty-list guards.

module CpuPlayer {
  import opened ChessTypes

  /** The largest 32-bit int; the searches start from -INT_MAX and INT_MAX. */
  const INT_MAX: int := 0x7fff_ffff
  const MAX_TRANSPOSITION_ENTRIES: nat := 1000000
  const MATE_SCORE: int := 10000

  datatype CPUDifficulty = Random | Easy | Medium | Hard

  /** The configuration fields that steer move selection (thinking time and the randomization factor are left out). */
  datatype CPUConfiguration = CPUConfiguration(
    difficulty: CPUDifficulty, enabled: bool, cpuColor: PlayerColor,
    enableRandomization: bool, candidateMoveCount: int)

  const DefaultConfiguration: CPUConfiguration := CPUConfiguration(Random, false, Black, true, 5)

  datatype MoveCandidate = MoveCandidate(move: PossibleMove, score: int)

  datatype NodeType = Exact | Alpha | Beta

  datatype TranspositionEntry = TranspositionEntry(hash: nat, depth: int, score: int, ntype: NodeType, move: PossibleMove)

  /** What a transposition probe leaves in the caller's score and move, and whether it hit. */
  datatype Probe = Probe(hit: bool, score: int, move: PossibleMove)

  // ---------------------------------------------------------------
  // Ordering candidates by score
  // ---------------------------------------------------------------

  predicate SortedByScore(s: seq<MoveCandidate>)
  {
    forall i, j :: 0 <= i < j < |s| ==> s[i].score >= s[j].score
  }

  /** Places c in front of the first candidate it is not below. */
  function InsertByScore(c: MoveCandidate, s: seq<MoveCandidate>): (r: seq<MoveCandidate>)
    ensures multiset(r) == multiset(s) + multiset{c} && |r| == |s| + 1
  {
    if s == [] || c.score >= s[0].score then [c] + s
    else
      assert s == [s[0]] + s[1..];
      [s[0]] + InsertByScore(c, s[1..])
  }

  lemma {:induction false} InsertSorted(c: MoveCandidate, s: seq<MoveCandidate>)
    requires SortedByScore(s)
    ensures SortedByScore(InsertByScore(c, s))
  {
    if s != [] && c.score < s[0].score {
      var rest := InsertByScore(c, s[1..]);
      InsertSorted(c, s[1..]);
      assert s == [s[0]] + s[1..];
      forall i | 0 <= i < |rest|
        ensures rest[i].score <= s[0].score
      {
        assert rest[i] in multiset(rest);
        if rest[i] != c {
          assert rest[i] in multiset(s[1..]);
          var j :| 0 <= j < |s[1..]| && s[1..][j] == rest[i];
          assert s[j + 1] == rest[i];
        }
      }
      assert InsertByScore(c, s) == [s[0]] + rest;
    }
  }

  /** Candidates from best to worst score. */
  function SortByScore(s: seq<MoveCandidate>): (r: seq<MoveCandidate>)
    ensures multiset(r) == multiset(s) && |r| == |s|
  {
    if s == [] then []
    else
      assert s == [s[0]] + s[1..];
      InsertByScore(s[0], SortByScore(s[1..]))
  }

  /** The sorted candidates are in descending score order. */
  lemma {:induction false} SortSorted(s: seq<MoveCandidate>)
    ensures SortedByScore(SortByScore(s))
  {
    if s != [] {
      SortSorted(s[1..]);
      InsertSorted(s[0], SortByScore(s[1..]));
    }
  }

  /** The number of candidates kept: min(count, n). */
  function TopCount(count: nat, n: nat): (k: nat)
    ensures k <= n && k <= count && (k == count || k == n)
  {
    if count < n then count else n
  }

  // ---------------------------------------------------------------
  // Transposition table
  // ---------------------------------------------------------------

  /** `storeTransposition`: a full table is emptied first, then the entry is set under its hash. */
  function StoreInto<E>(table: map<nat, E>, hash: nat, entry: E): map<nat, E>
  {
    (if |table| >= MAX_TRANSPOSITION_ENTRIES then map[] else table)[hash := entry]
  }

  /** `lookupTransposition`: a hit needs the hash and a stored depth at least `depth`; a miss leaves score and move. */
  function ProbeTable(table: map<nat, TranspositionEntry>, hash: nat, depth: int, score: int, move: PossibleMove): (p: Probe)
    ensures p.hit <==> hash in table && table[hash].depth >= depth
    ensures p.hit ==> p.score == table[hash].score && p.move == table[hash].move
    ensures !p.hit ==> p.score == score && p.move == move
  {
    if hash in table && table[hash].depth >= depth then Probe(true, table[hash].score, table[hash].move)
    else Probe(false, score, move)
  }

  lemma MapUpdateSize<E>(table: map<nat, E>, k: nat, v: E)
    ensures |table[k := v]| <= |table| + 1
  {
    if k in table {
      assert table[k := v].Keys == table.Keys;
    } else {
      assert table[k := v].Keys == table.Keys + {k};
    }
  }

  /** The table never grows past its bound. */
  lemma StoreBounded<E>(table: map<nat, E>, hash: nat, entry: E)
    requires |table| <= MAX_TRANSPOSITION_ENTRIES
    ensures |StoreInto(table, hash, entry)| <= MAX_TRANSPOSITION_ENTRIES
  {
    var base := if |table| >= MAX_TRANSPOSITION_ENTRIES then map[] else table;
    MapUpdateSize(base, hash, entry);
  }

  /**
   * A stored entry is found again at any depth up to its own, with its score
   * and move; other hashes keep their entries unless the table was full.
   */
  lemma ProbeAfterStore(table: map<nat, TranspositionEntry>, entry: TranspositionEntry, hash: nat, depth: int, score: int, move: PossibleMove)
    ensures ProbeTable(StoreInto(table, entry.hash, entry), entry.hash, depth, score, move)
            == if depth <= entry.depth then Probe(true, entry.score, entry.move) else Probe(false, score, move)
    ensures hash != entry.hash && |table| < MAX_TRANSPOSITION_ENTRIES ==>
              ProbeTable(StoreInto(table, entry.hash, entry), hash, depth, score, move) == ProbeTable(table, hash, depth, score, move)
    ensures hash != entry.hash && |table| >= MAX_TRANSPOSITION_ENTRIES ==>
              !ProbeTable(StoreInto(table, entry.hash, entry), hash, depth, score, move).hit
  {
  }

  // ---------------------------------------------------------------
  // Minimax over a game tree
  // ---------------------------------------------------------------

  /**
   * A position reached by a move: `staticEval` is the move-and-position
   * evaluation the search uses at depth 0, `inCheck` whether the side to move
   * is in check, and `children` the positions after each legal move.
   */
  datatype GameNode = GameNode(staticEval: int, inCheck: bool, children: seq<GameNode>)

  /** The checkmate score as written: the remaining depth is taken off the mating side's score. */
  function MateScoreAsWritten(maximizing: bool, depth: int): int
  {
    if maximizing then -MATE_SCORE + depth else MATE_SCORE - depth
  }

  /** As written, a mate found nearer the root (more depth left) scores less for the mating side. */
  lemma MateScoreAsWrittenPrefersSlowMates(d1: int, d2: int)
    requires d1 < d2
    ensures MateScoreAsWritten(false, d2) < MateScoreAsWritten(false, d1)
    ensures MateScoreAsWritten(true, d2) > MateScoreAsWritten(true, d1)
    ensures MateScoreAsWritten(false, 3) == 9997 && MateScoreAsWritten(false, 1) == 9999
  {
  }

  /** The checkmate score with the remaining depth added to the mating side's score. */
  function MateScore(maximizing: bool, depth: int): (score: int)
  {
    if maximizing then -(MATE_SCORE + depth) else MATE_SCORE + depth
  }

  /** Corrected, a quicker mate scores more for the mating side and less for the mated side; both stay beyond every regular score. */
  lemma MateScorePrefersQuickMates(d1: int, d2: int)
    requires 0 < d1 < d2
    ensures MateScore(false, d2) > MateScore(false, d1) > MATE_SCORE
    ensures MateScore(true, d2) < MateScore(true, d1) < -MATE_SCORE
    ensures MateScore(true, d1) == -MateScore(false, d1)
  {
  }

  /** `minimax`: static evaluation at depth 0, checkmate or stalemate without moves, else the best child for the side to move. */
  function MinimaxValue(node: GameNode, depth: int, maximizing: bool): int
    decreases node, 1, 0
  {
    if depth == 0 then node.staticEval
    else if node.children == [] then (if node.inCheck then MateScore(maximizing, depth) else 0)
    else BestOfChildren(node, |node.children|, depth - 1, maximizing)
  }

  /** The running maximum (or minimum) of the first k children, from -INT_MAX (or INT_MAX). */
  function BestOfChildren(node: GameNode, k: nat, childDepth: int, maximizing: bool): int
    requires k <= |node.children|
    decreases node, 0, k
  {
    if k == 0 then (if maximizing then -INT_MAX else INT_MAX)
    else
      var best := BestOfChildren(node, k - 1, childDepth, maximizing);
      var eval := MinimaxValue(node.children[k - 1], childDepth, !maximizing);
      if maximizing then Max(best, eval) else if eval < best then eval else best
  }

  /** The search terminates the source's way at a leaf: checkmate is a mate score, stalemate is 0. */
  lemma MinimaxTerminal(node: GameNode, depth: int, maximizing: bool)
    requires depth != 0 && node.children == []
    ensures node.inCheck ==> MinimaxValue(node, depth, maximizing) == MateScore(maximizing, depth)
    ensures !node.inCheck ==> MinimaxValue(node, depth, maximizing) == 0
    ensures depth > 0 && node.inCheck ==>
              (MinimaxValue(node, depth, maximizing) > MATE_SCORE <==> !maximizing)
  {
  }

  /**
   * Over children whose values are 32-bit, the maximizing value is at least
   * each child's value and equal to one of them; the minimizing value dually.
   */
  lemma {:induction false} BestOfChildrenIsExtreme(node: GameNode, k: nat, childDepth: int, maximizing: bool)
    requires 0 < k <= |node.children|
    requires forall i :: 0 <= i < k ==> -INT_MAX <= MinimaxValue(node.children[i], childDepth, !maximizing) <= INT_MAX
    ensures exists i :: 0 <= i < k && BestOfChildren(node, k, childDepth, maximizing) == MinimaxValue(node.children[i], childDepth, !maximizing)
    ensures maximizing ==> forall i :: 0 <= i < k ==> BestOfChildren(node, k, childDepth, maximizing) >= MinimaxValue(node.children[i], childDepth, !maximizing)
    ensures !maximizing ==> forall i :: 0 <= i < k ==> BestOfChildren(node, k, childDepth, maximizing) <= MinimaxValue(node.children[i], childDepth, !maximizing)
  {
    var eval := MinimaxValue(node.children[k - 1], childDepth, !maximizing);
    if k > 1 {
      BestOfChildrenIsExtreme(node, k - 1, childDepth, maximizing);
      var i :| 0 <= i < k - 1 && BestOfChildren(node, k - 1, childDepth, maximizing) == MinimaxValue(node.children[i], childDepth, !maximizing);
      var best := BestOfChildren(node, k - 1, childDepth, maximizing);
      if (maximizing && eval <= best) || (!maximizing && eval >= best) {
        assert BestOfChildren(node, k, childDepth, maximizing) == MinimaxValue(node.children[i], childDepth, !maximizing);
      } else {
        assert BestOfChildren(node, k, childDepth, maximizing) == eval;
      }
    } else {
      assert BestOfChildren(node, k, childDepth, maximizing) == eval;
    }
  }

  /** The first index of the strictly best score over the first k, from moves[0] and -INT_MAX as the source starts. */
  function RootChoice(scores: seq<int>, k: nat): (r: (nat, int))
    requires 0 < |scores| && k <= |scores|
    ensures r.0 < |scores| && (k > 0 ==> r.0 < k)
  {
    if k == 0 then (0, -INT_MAX)
    else
      var prev := RootChoice(scores, k - 1);
      if scores[k - 1] > prev.1 then (k - 1, scores[k - 1]) else prev
  }

  /** The chosen index has the highest score, and no earlier index has it, once some score is above -INT_MAX. */
  lemma {:induction false} RootChoiceIsBest(scores: seq<int>, k: nat)
    requires 0 < |scores| && k <= |scores|
    ensures RootChoice(scores, k).1 >= -INT_MAX
    ensures forall j :: 0 <= j < k ==> scores[j] <= RootChoice(scores, k).1
    ensures RootChoice(scores, k).1 > -INT_MAX ==>
              scores[RootChoice(scores, k).0] == RootChoice(scores, k).1
              && forall j :: 0 <= j < RootChoice(scores, k).0 ==> scores[j] < RootChoice(scores, k).1
    ensures RootChoice(scores, k).1 == -INT_MAX ==> RootChoice(scores, k).0 == 0
  {
    if k > 0 {
      RootChoiceIsBest(scores, k - 1);
    }
  }

  /** The plan of `calculateMove` for each difficulty. */
  datatype SearchPlan = RandomPick | BestEvaluated | MiniMax(depth: int) | AlphaBeta(depth: int)

  function PlanFor(difficulty: CPUDifficulty, moveCount: nat): (plan: SearchPlan)
    ensures difficulty == Easy ==> (plan == BestEvaluated <==> moveCount > 20) && (plan != BestEvaluated ==> plan == MiniMax(3))
    ensures difficulty == Medium ==> plan == AlphaBeta(3)
    ensures difficulty == Hard ==> plan == AlphaBeta(6)
    ensures difficulty == Random ==> plan == RandomPick
  {
    match difficulty
    case Random => RandomPick
    case Easy => if moveCount > 20 then BestEvaluated else MiniMax(3)
    case Medium => AlphaBeta(3)
    case Hard => AlphaBeta(6)
  }

  /** The CPU always promotes to a queen; other moves are kept as chosen. */
  function WithCpuPromotion(m: PossibleMove): (r: PossibleMove)
    ensures PawnPromotion in m.mtype ==> r == m.(promotionPiece := Queen)
    ensures PawnPromotion !in m.mtype ==> r == m
    ensures SameSquares(r, m) && r.mtype == m.mtype
  {
    if PawnPromotion in m.mtype then m.(promotionPiece := Queen) else m
  }

  /** Each move paired with its evaluation, in list order. */
  function Candidates(moves: seq<PossibleMove>, evaluation: PossibleMove -> int): (r: seq<MoveCandidate>)
    ensures |r| == |moves| && forall i :: 0 <= i < |r| ==> r[i] == MoveCandidate(moves[i], evaluation(moves[i]))
  {
    seq(|moves|, i requires 0 <= i < |moves| => MoveCandidate(moves[i], evaluation(moves[i])))
  }

  /** Ordering the candidates keeps exactly the given moves. */
  lemma {:induction false} OrderedCoversMoves(moves: seq<PossibleMove>, evaluation: PossibleMove -> int)
    ensures |SortByScore(Candidates(moves, evaluation))| == |moves|
    ensures forall j :: 0 <= j < |moves| ==> SortByScore(Candidates(moves, evaluation))[j].move in moves
    ensures forall x :: x in moves ==> exists j :: 0 <= j < |moves| && SortByScore(Candidates(moves, evaluation))[j].move == x
  {
    var cands := Candidates(moves, evaluation);
    var ordered := SortByScore(cands);
    forall j | 0 <= j < |moves|
      ensures ordered[j].move in moves
    {
      assert ordered[j] in multiset(cands);
      var i :| 0 <= i < |cands| && cands[i] == ordered[j];
    }
    forall x | x in moves
      ensures exists j :: 0 <= j < |moves| && ordered[j].move == x
    {
      var i :| 0 <= i < |moves| && moves[i] == x;
      assert cands[i] in multiset(ordered);
      var j :| 0 <= j < |ordered| && ordered[j] == cands[i];
    }
  }

  function SearchScores(ordered: seq<MoveCandidate>, searched: PossibleMove -> int): (r: seq<int>)
    ensures |r| == |ordered| && forall i :: 0 <= i < |r| ==> r[i] == searched(ordered[i].move)
  {
    seq(|ordered|, i requires 0 <= i < |ordered| => searched(ordered[i].move))
  }

  /** When some listed move scores above -INT_MAX, the root choice scores at least as much as every listed move. */
  lemma {:induction false} RootChoiceDominates(moves: seq<PossibleMove>, ordered: seq<MoveCandidate>, searched: PossibleMove -> int)
    requires 0 < |ordered|
    requires forall x :: x in moves ==> exists j :: 0 <= j < |ordered| && ordered[j].move == x
    requires exists x :: x in moves && searched(x) > -INT_MAX
    ensures forall x :: x in moves ==>
              searched(ordered[RootChoice(SearchScores(ordered, searched), |ordered|).0].move) >= searched(x)
  {
    var scores := SearchScores(ordered, searched);
    RootChoiceIsBest(scores, |ordered|);
    var y :| y in moves && searched(y) > -INT_MAX;
    var k :| 0 <= k < |ordered| && ordered[k].move == y;
    assert scores[k] == searched(y);
    forall x | x in moves
      ensures searched(ordered[RootChoice(scores, |ordered|).0].move) >= searched(x)
    {
      var j :| 0 <= j < |ordered| && ordered[j].move == x;
      assert scores[j] == searched(x);
    }
  }

  class CPUPlayer {
    var config: CPUConfiguration
    var transpositionTable: map<nat, TranspositionEntry>

    ghost predicate Valid()
      reads this
    {
      |transpositionTable| <= MAX_TRANSPOSITION_ENTRIES
    }

    constructor()
      ensures Valid() && config == DefaultConfiguration && transpositionTable == map[]
    {
      config := DefaultConfiguration;
      transpositionTable := map[];
    }

    /** `setCPUConfiguration`: replaces the configuration; the table is kept. */
    method SetCPUConfiguration(c: CPUConfiguration)
      modifies this
      ensures config == c && transpositionTable == old(transpositionTable)
    {
      config := c;
    }

    /** `isCPUPlayer`: the CPU is enabled and plays this colour. */
    predicate IsCPUPlayer(player: PlayerColor)
      reads this
    {
      config.enabled && player == config.cpuColor
    }

    /** A disabled CPU plays no colour; an enabled one plays its own colour and not the other side. */
    lemma IsCPUPlayerRules(player: PlayerColor)
      ensures !config.enabled ==> !IsCPUPlayer(player)
      ensures config.enabled ==> IsCPUPlayer(config.cpuColor)
      ensures config.enabled && config.cpuColor != NoColor ==> !IsCPUPlayer(Opponent(config.cpuColor))
    {
    }

    /** `storeTransposition`. */
    method StoreTransposition(hash: nat, depth: int, score: int, ntype: NodeType, move: PossibleMove)
      requires Valid()
      modifies this
      ensures Valid() && config == old(config)
      ensures transpositionTable == StoreInto(old(transpositionTable), hash, TranspositionEntry(hash, depth, score, ntype, move))
    {
      StoreBounded(transpositionTable, hash, TranspositionEntry(hash, depth, score, ntype, move));
      if |transpositionTable| >= MAX_TRANSPOSITION_ENTRIES {
        transpositionTable := map[];
      }
      var entry := TranspositionEntry(hash, depth, score, ntype, move);
      transpositionTable := transpositionTable[hash := entry];
    }

    /** `lookupTransposition`, with the caller's score and move passed in and handed back on a miss. */
    function LookupTransposition(hash: nat, depth: int, score: int, move: PossibleMove): Probe
      reads this
    {
      ProbeTable(transpositionTable, hash, depth, score, move)
    }

    /** `std::sort` by descending score, in place. */
    method SortCandidates(a: array<MoveCandidate>)
      modifies a
      ensures SortedByScore(a[..]) && multiset(a[..]) == multiset(old(a[..]))
    {
      var sorted := SortByScore(a[..]);
      SortSorted(a[..]);
      forall i | 0 <= i < a.Length {
        a[i] := sorted[i];
      }
      assert a[..] == sorted;
    }

    /**
     * `filterTopCandidates`: sorts the candidates in place and returns the
     * first min(candidateMoveCount, n) of them, which no left-out candidate beats.
     * A negative count makes the initial `reserve` throw `std::length_error`
     * before anything is sorted; `thrown` reports it.
     */
    method FilterTopCandidates(allMoves: array<MoveCandidate>) returns (top: seq<MoveCandidate>, thrown: bool)
      modifies allMoves
      ensures thrown <==> config.candidateMoveCount < 0
      ensures thrown ==> top == [] && allMoves[..] == old(allMoves[..])
      ensures !thrown ==> SortedByScore(allMoves[..]) && multiset(allMoves[..]) == multiset(old(allMoves[..]))
      ensures !thrown ==> top == allMoves[..TopCount(config.candidateMoveCount, allMoves.Length)]
      ensures forall i, j :: 0 <= i < |top| && |top| <= j < allMoves.Length ==> top[i].score >= allMoves[j].score
    {
      if config.candidateMoveCount < 0 {
        return [], true;
      }
      thrown := false;
      SortCandidates(allMoves);
      var actualCount := if config.candidateMoveCount < allMoves.Length then config.candidateMoveCount else allMoves.Length;
      top := [];
      var i := 0;
      while i < actualCount
        invariant 0 <= i <= TopCount(config.candidateMoveCount, allMoves.Length)
        invariant top == allMoves[..i]
      {
        top := top + [allMoves[i]];
        i := i + 1;
      }
    }

    /** `selectBestMove`: the first of the top candidates, or the empty move when there is none; the filter's throw passes through. */
    method SelectBestMove(moves: array<MoveCandidate>) returns (m: PossibleMove, thrown: bool)
      modifies moves
      ensures thrown <==> config.candidateMoveCount < 0
      ensures multiset(moves[..]) == multiset(old(moves[..]))
      ensures !thrown && (config.candidateMoveCount == 0 || moves.Length == 0) ==> m == EmptyPossibleMove
      ensures !thrown && config.candidateMoveCount > 0 && moves.Length > 0 ==>
                exists c :: c in old(moves[..]) && c.move == m && forall d :: d in old(moves[..]) ==> c.score >= d.score
    {
      var topCandidates;
      topCandidates, thrown := FilterTopCandidates(moves);
      if thrown {
        return EmptyPossibleMove, true;
      }
      if topCandidates == [] {
        return EmptyPossibleMove, false;
      }
      var best := topCandidates[0];
      assert best == moves[0] && best in multiset(moves[..]);
      forall d | d in old(moves[..])
        ensures best.score >= d.score
      {
        assert d in multiset(moves[..]);
        var j :| 0 <= j < moves.Length && moves[j] == d;
        assert j == 0 || moves[0].score >= moves[j].score;
      }
      m := best.move;
    }

    /**
     * `selectMoveWithRandomization`, with the weighted draw given as the index
     * it lands on; an index past the candidates falls back to the first, as
     * the source's final return does. The filter's throw passes through.
     */
    method SelectMoveWithRandomization(moves: array<MoveCandidate>, drawn: nat) returns (m: PossibleMove, thrown: bool)
      modifies moves
      ensures thrown <==> config.candidateMoveCount < 0
      ensures multiset(moves[..]) == multiset(old(moves[..]))
      ensures !thrown && (config.candidateMoveCount == 0 || moves.Length == 0) ==> m == EmptyPossibleMove
      ensures !thrown && config.candidateMoveCount > 0 && moves.Length > 0 ==>
                exists i :: 0 <= i < TopCount(config.candidateMoveCount, moves.Length) && moves[i].move == m
      ensures !thrown && config.candidateMoveCount > 0 && moves.Length > 0 && !config.enableRandomization ==> m == moves[0].move
    {
      var topCandidates;
      topCandidates, thrown := FilterTopCandidates(moves);
      if thrown {
        return EmptyPossibleMove, true;
      }
      if topCandidates == [] {
        return EmptyPossibleMove, false;
      }
      if |topCandidates| == 1 || !config.enableRandomization {
        return topCandidates[0].move, false;
      }
      m := if drawn < |topCandidates| then topCandidates[drawn].move else topCandidates[0].move;
    }

    /** `getRandomMove`, with the uniform draw in [0, n-1] given as input. */
    method GetRandomMove(moves: seq<PossibleMove>, drawn: nat) returns (m: PossibleMove)
      requires moves != [] ==> drawn < |moves|
      ensures moves == [] ==> m == EmptyPossibleMove
      ensures moves != [] ==> m == moves[drawn] && m in moves
    {
      if moves == [] {
        return EmptyPossibleMove;
      }
      m := moves[drawn];
    }

    /**
     * `getBestEvaluatedMove`, with the advanced evaluation of each move and the
     * weighted draw given as input; a negative candidate count throws from the filter.
     */
    method GetBestEvaluatedMove(moves: seq<PossibleMove>, evaluation: PossibleMove -> int, drawn: nat) returns (m: PossibleMove, thrown: bool)
      modifies this
      ensures config == old(config) && transpositionTable == old(transpositionTable)
      ensures thrown <==> moves != [] && config.candidateMoveCount < 0
      ensures moves == [] || config.candidateMoveCount == 0 ==> m == EmptyPossibleMove
      ensures moves != [] && config.candidateMoveCount > 0 ==> m in moves
      ensures moves != [] && config.candidateMoveCount > 0 && !config.enableRandomization ==>
                forall x :: x in moves ==> evaluation(m) >= evaluation(x)
    {
      if moves == [] {
        return EmptyPossibleMove, false;
      }
      var evaluatedMoves := new MoveCandidate[|moves|](i requires 0 <= i < |moves| => MoveCandidate(moves[i], evaluation(moves[i])));
      ghost var candidates := evaluatedMoves[..];
      assert forall c :: c in candidates ==> c.move in moves && c.score == evaluation(c.move);
      assert forall x :: x in moves ==> MoveCandidate(x, evaluation(x)) in candidates by {
        forall x | x in moves ensures MoveCandidate(x, evaluation(x)) in candidates {
          var i :| 0 <= i < |moves| && moves[i] == x;
          assert candidates[i] == MoveCandidate(x, evaluation(x));
        }
      }
      if config.enableRandomization {
        m, thrown := SelectMoveWithRandomization(evaluatedMoves, drawn);
        if config.candidateMoveCount > 0 {
          ghost var i :| 0 <= i < TopCount(config.candidateMoveCount, evaluatedMoves.Length) && evaluatedMoves[i].move == m;
          assert evaluatedMoves[i] in multiset(candidates);
        }
      } else {
        m, thrown := SelectBestMove(evaluatedMoves);
        if config.candidateMoveCount > 0 {
          ghost var c :| c in candidates && c.move == m && forall d :: d in candidates ==> c.score >= d.score;
          forall x | x in moves ensures evaluation(m) >= evaluation(x) {
            assert MoveCandidate(x, evaluation(x)) in candidates;
          }
        }
      }
    }

    /** `minimax`, recursing through the game tree the way the source recurses through make and unmake. */
    method Minimax(node: GameNode, depth: int, maximizing: bool) returns (value: int)
      ensures value == MinimaxValue(node, depth, maximizing)
      decreases node
    {
      if depth == 0 {
        return node.staticEval;
      }
      var moves := node.children;
      if moves == [] {
        if node.inCheck {
          return MateScore(maximizing, depth);
        }
        return 0;
      }
      if maximizing {
        var maxEval := -INT_MAX;
        for i := 0 to |moves|
          invariant maxEval == BestOfChildren(node, i, depth - 1, true)
        {
          var eval := Minimax(moves[i], depth - 1, false);
          maxEval := Max(maxEval, eval);
        }
        value := maxEval;
      } else {
        var minEval := INT_MAX;
        for i := 0 to |moves|
          invariant minEval == BestOfChildren(node, i, depth - 1, false)
        {
          var eval := Minimax(moves[i], depth - 1, true);
          minEval := if eval < minEval then eval else minEval;
        }
        value := minEval;
      }
    }

    /**
     * `getMiniMaxMove`: every root move is searched with the opponent to
     * move, and the first move of the highest score wins, from moves[0].
     */
    method GetMiniMaxMove(moves: seq<PossibleMove>, after: PossibleMove -> GameNode, depth: int) returns (bestMove: PossibleMove)
      ensures moves == [] ==> bestMove == EmptyPossibleMove
      ensures moves != [] ==> bestMove in moves
      ensures moves != [] ==>
                var scores := seq(|moves|, i requires 0 <= i < |moves| => MinimaxValue(after(moves[i]), depth - 1, false));
                bestMove == moves[RootChoice(scores, |moves|).0]
    {
      if moves == [] {
        return EmptyPossibleMove;
      }
      ghost var scores := seq(|moves|, i requires 0 <= i < |moves| => MinimaxValue(after(moves[i]), depth - 1, false));
      bestMove := moves[0];
      var bestScore := -INT_MAX;
      for i := 0 to |moves|
        invariant (bestMove, bestScore) == (moves[RootChoice(scores, i).0], RootChoice(scores, i).1)
      {
        var score := Minimax(after(moves[i]), depth - 1, false);
        assert score == scores[i];
        if score > bestScore {
          bestScore := score;
          bestMove := moves[i];
        }
      }
    }

    /**
     * The root of `getAlphaBetaMove`: the moves are ordered by their advanced
     * evaluation, then searched in that order (the search result of each move
     * is given as input), and the first move of the highest score wins.
     */
    method GetAlphaBetaMove(moves: seq<PossibleMove>, evaluation: PossibleMove -> int, searched: PossibleMove -> int) returns (bestMove: PossibleMove)
      ensures moves == [] ==> bestMove == EmptyPossibleMove
      ensures moves != [] ==> bestMove in moves
      ensures moves != [] && (exists x :: x in moves && searched(x) > -INT_MAX) ==>
                forall x :: x in moves ==> searched(bestMove) >= searched(x)
    {
      if moves == [] {
        return EmptyPossibleMove;
      }
      var ordered := SortByScore(Candidates(moves, evaluation));
      OrderedCoversMoves(moves, evaluation);
      bestMove := SearchInOrder(ordered, searched);
      if exists x :: x in moves && searched(x) > -INT_MAX {
        RootChoiceDominates(moves, ordered, searched);
      }
    }
  }

  /** The root loop of getAlphaBetaMove: the first move of strictly highest search score, starting from -INT_MAX. */
  method SearchInOrder(ordered: seq<MoveCandidate>, searched: PossibleMove -> int) returns (bestMove: PossibleMove)
    requires 0 < |ordered|
    ensures bestMove == ordered[RootChoice(SearchScores(ordered, searched), |ordered|).0].move
  {
    ghost var scores := SearchScores(ordered, searched);
    bestMove := ordered[0].move;
    var bestScore := -INT_MAX;
    for i := 0 to |ordered|
      invariant (bestMove, bestScore) == (ordered[RootChoice(scores, i).0].move, RootChoice(scores, i).1)
    {
      var score := searched(ordered[i].move);
      if score > bestScore {
        bestScore := score;
        bestMove := ordered[i].move;
      }
    }
  }
}
