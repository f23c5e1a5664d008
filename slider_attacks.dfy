// Sliding-piece attacks of the bitboard engine: the bishop and rook attack
// generators walk each ray square by square and stop after the first
// blocker; the relevant-occupancy masks walk the same rays without the board
// edge; `setOccupancy` spreads the bits of an index over the squares of a mask.

module SliderAttacks {
  import opened BitboardTypes
  import opened AttackTables

  // ---------------------------------------------------------------
  // Rays
  // ---------------------------------------------------------------

  /** A ray direction: one rank step and one file step, each -1, 0 or 1, not both 0. */
  predicate IsDirection(dr: int, df: int)
  {
    -1 <= dr <= 1 && -1 <= df <= 1 && (dr != 0 || df != 0)
  }

  /**
   * The test of a ray loop: only the bound the walk is heading for is checked
   * (`r <= 7` when the rank grows, `r >= 0` when it shrinks; 1..6 for the masks).
   */
  predicate Continues(r: int, f: int, dr: int, df: int, lo: int, hi: int)
  {
    (dr == 1 ==> r <= hi) && (dr == -1 ==> r >= lo) && (df == 1 ==> f <= hi) && (df == -1 ==> f >= lo)
  }

  /**
   * Where a ray loop may start: a coordinate that does not move is on the
   * board, and one that moves starts on the near side of the bound it heads for.
   */
  predicate StartOk(r: int, f: int, dr: int, df: int, lo: int, hi: int)
  {
    (if dr == 0 then 0 <= r <= 7 else if dr == 1 then lo <= r else r <= hi)
    && (if df == 0 then 0 <= f <= 7 else if df == 1 then lo <= f else f <= hi)
  }

  /** The steps a ray has left before it runs off the board. */
  function RayMeasure(r: int, f: int, dr: int, df: int): int
  {
    if dr == 1 then 8 - r else if dr == -1 then r + 1 else if df == 1 then 8 - f else f + 1
  }

  /**
   * The squares a ray loop visits from (r, f): each square is added while the
   * loop test holds, and the walk ends after a square that is occupied.
   */
  function Ray(r: int, f: int, dr: int, df: int, lo: int, hi: int, occupied: set<int>): seq<int>
    requires IsDirection(dr, df) && 0 <= lo && hi <= 7 && StartOk(r, f, dr, df, lo, hi)
    decreases RayMeasure(r, f, dr, df)
  {
    if !Continues(r, f, dr, df, lo, hi) then []
    else if r * 8 + f in occupied then [r * 8 + f]
    else [r * 8 + f] + Ray(r + dr, f + df, dr, df, lo, hi, occupied)
  }

  /** The squares whose bit is set in a board. */
  function Occupied(b: U64): set<int>
  {
    set t | 0 <= t < 64 && IsSet(b, t)
  }

  /** The bishop's four diagonals from rank index `tr` and file `tf`, in the order the generator walks them. */
  function BishopRays(tr: int, tf: int, occupied: set<int>): seq<int>
    requires 0 <= tr <= 7 && 0 <= tf <= 7
  {
    Ray(tr + 1, tf + 1, 1, 1, 0, 7, occupied) + Ray(tr + 1, tf - 1, 1, -1, 0, 7, occupied)
    + Ray(tr - 1, tf + 1, -1, 1, 0, 7, occupied) + Ray(tr - 1, tf - 1, -1, -1, 0, 7, occupied)
  }

  /** The rook's four lines: toward rank 1, toward rank 8, toward the h-file, toward the a-file. */
  function RookRays(tr: int, tf: int, occupied: set<int>): seq<int>
    requires 0 <= tr <= 7 && 0 <= tf <= 7
  {
    Ray(tr + 1, tf, 1, 0, 0, 7, occupied) + Ray(tr - 1, tf, -1, 0, 0, 7, occupied)
    + Ray(tr, tf + 1, 0, 1, 0, 7, occupied) + Ray(tr, tf - 1, 0, -1, 0, 7, occupied)
  }

  /** The bishop's relevant occupancy squares: the diagonals inside ranks and files 2..7, in the mask's order. */
  function BishopMaskRays(tr: int, tf: int): seq<int>
    requires 0 <= tr <= 7 && 0 <= tf <= 7
  {
    Ray(tr + 1, tf + 1, 1, 1, 1, 6, {}) + Ray(tr - 1, tf + 1, -1, 1, 1, 6, {})
    + Ray(tr + 1, tf - 1, 1, -1, 1, 6, {}) + Ray(tr - 1, tf - 1, -1, -1, 1, 6, {})
  }

  /** The rook's relevant occupancy squares: the four lines without their last square. */
  function RookMaskRays(tr: int, tf: int): seq<int>
    requires 0 <= tr <= 7 && 0 <= tf <= 7
  {
    Ray(tr + 1, tf, 1, 0, 1, 6, {}) + Ray(tr - 1, tf, -1, 0, 1, 6, {})
    + Ray(tr, tf + 1, 0, 1, 1, 6, {}) + Ray(tr, tf - 1, 0, -1, 1, 6, {})
  }

  /** One step of a ray: the square at (r, f), then the rest unless it is occupied. */
  lemma RayStep(r: int, f: int, dr: int, df: int, lo: int, hi: int, occupied: set<int>)
    requires IsDirection(dr, df) && 0 <= lo && hi <= 7 && StartOk(r, f, dr, df, lo, hi)
    requires Continues(r, f, dr, df, lo, hi)
    ensures 0 <= r <= 7 && 0 <= f <= 7 && StartOk(r + dr, f + df, dr, df, lo, hi)
    ensures r * 8 + f in occupied ==> Ray(r, f, dr, df, lo, hi, occupied) == [r * 8 + f]
    ensures r * 8 + f !in occupied ==> Ray(r, f, dr, df, lo, hi, occupied) == [r * 8 + f] + Ray(r + dr, f + df, dr, df, lo, hi, occupied)
  {
  }

  // ---------------------------------------------------------------
  // The ray loops
  // ---------------------------------------------------------------

  /** `attacks |= 1ULL << sq` sets that square and keeps the others. */
  lemma AddSquareBit(acc: U64, sq: int, t: int)
    requires 0 <= sq < 64 && 0 <= t < 64
    ensures IsSet(acc | SquareBit(sq), t) <==> IsSet(acc, t) || t == sq
  {
    OrBits(acc, SquareBit(sq), t);
    SingleBit(sq, t);
  }

  /** The squares listed in a ray. */
  function Squares(s: seq<int>): set<int>
  {
    set t | t in s
  }

  /** The squares of `a` are those of `base` plus the squares visited so far. */
  predicate Covers(a: U64, base: U64, visited: seq<int>)
  {
    Occupied(a) == Occupied(base) + Squares(visited)
  }

  lemma CoversAdd(a: U64, base: U64, visited: seq<int>, sq: int)
    requires 0 <= sq < 64 && Covers(a, base, visited)
    ensures Covers(a | SquareBit(sq), base, visited + [sq])
  {
    forall t
      ensures t in Occupied(a | SquareBit(sq)) <==> t in Occupied(base) + Squares(visited + [sq])
    {
      assert t in Squares(visited + [sq]) <==> t in Squares(visited) || t == sq;
      assert t in Occupied(base) + Squares(visited) <==> t in Occupied(a);
      if 0 <= t < 64 {
        AddSquareBit(a, sq, t);
      }
    }
  }

  /** A concatenation of rays lists the squares of both. */
  lemma SquaresConcat(s: seq<int>, u: seq<int>)
    ensures Squares(s + u) == Squares(s) + Squares(u)
  {
  }

  /** The generator's blocker test is membership in the occupied squares. */
  lemma OccupiedTest(sq: int, blocker: U64)
    requires 0 <= sq < 64
    ensures SquareBit(sq) & blocker != 0 <==> sq in Occupied(blocker)
  {
    MaskTest(sq, blocker);
  }

  /** The empty board has no square set. */
  lemma EmptyBoard()
    ensures Occupied(0) == {}
  {
    forall t | 0 <= t < 64
      ensures !IsSet(0, t)
    {
      ZeroBits(t);
    }
  }

  lemma RayAdvance(visited: seq<int>, r: int, f: int, dr: int, df: int, lo: int, hi: int, occupied: set<int>, whole: seq<int>)
    requires IsDirection(dr, df) && 0 <= lo && hi <= 7 && StartOk(r, f, dr, df, lo, hi)
    requires Continues(r, f, dr, df, lo, hi) && r * 8 + f !in occupied
    requires visited + Ray(r, f, dr, df, lo, hi, occupied) == whole
    ensures StartOk(r + dr, f + df, dr, df, lo, hi)
    ensures (visited + [r * 8 + f]) + Ray(r + dr, f + df, dr, df, lo, hi, occupied) == whole
  {
    var rest := Ray(r + dr, f + df, dr, df, lo, hi, occupied);
    assert Ray(r, f, dr, df, lo, hi, occupied) == [r * 8 + f] + rest;
    assert (visited + [r * 8 + f]) + rest == visited + ([r * 8 + f] + rest);
  }

  lemma RayBlocked(visited: seq<int>, r: int, f: int, dr: int, df: int, lo: int, hi: int, occupied: set<int>, whole: seq<int>)
    requires IsDirection(dr, df) && 0 <= lo && hi <= 7 && StartOk(r, f, dr, df, lo, hi)
    requires Continues(r, f, dr, df, lo, hi) && r * 8 + f in occupied
    requires visited + Ray(r, f, dr, df, lo, hi, occupied) == whole
    ensures visited + [r * 8 + f] == whole
  {
  }

  lemma RayLeaves(visited: seq<int>, r: int, f: int, dr: int, df: int, lo: int, hi: int, occupied: set<int>, whole: seq<int>)
    requires IsDirection(dr, df) && 0 <= lo && hi <= 7 && StartOk(r, f, dr, df, lo, hi)
    requires !Continues(r, f, dr, df, lo, hi)
    requires visited + Ray(r, f, dr, df, lo, hi, occupied) == whole
    ensures visited == whole
  {
    assert visited + [] == visited;
  }

  /** What holds before each iteration of a ray loop: `a` is `base` plus the squares visited so far. */
  predicate Walking(a: U64, base: U64, visited: seq<int>, r: int, f: int, dr: int, df: int, lo: int, hi: int, occupied: set<int>, whole: seq<int>)
  {
    IsDirection(dr, df) && 0 <= lo && hi <= 7 && StartOk(r, f, dr, df, lo, hi)
    && visited + Ray(r, f, dr, df, lo, hi, occupied) == whole && Covers(a, base, visited)
  }

  /**
   * One iteration of a generator's ray loop: `attacks |= 1ULL << (r * 8 + f)`,
   * then stop if that square is set in `blocker`, else step along the ray.
   */
  method VisitSquare(a: U64, ghost base: U64, ghost visited: seq<int>, r: int, f: int, dr: int, df: int, blocker: U64, ghost whole: seq<int>)
    returns (a': U64, blocked: bool, r': int, f': int, ghost visited': seq<int>)
    requires Walking(a, base, visited, r, f, dr, df, 0, 7, Occupied(blocker), whole) && Continues(r, f, dr, df, 0, 7)
    ensures blocked ==> Covers(a', base, whole)
    ensures !blocked ==> Walking(a', base, visited', r', f', dr, df, 0, 7, Occupied(blocker), whole)
    ensures !blocked ==> RayMeasure(r', f', dr, df) < RayMeasure(r, f, dr, df)
  {
    var sq := r * 8 + f;
    RayStep(r, f, dr, df, 0, 7, Occupied(blocker));
    CoversAdd(a, base, visited, sq);
    OccupiedTest(sq, blocker);
    a' := a | SquareBit(sq);
    visited' := visited + [sq];
    r', f' := r + dr, f + df;
    blocked := SquareBit(sq) & blocker != 0;
    if blocked {
      RayBlocked(visited, r, f, dr, df, 0, 7, Occupied(blocker), whole);
    } else {
      RayAdvance(visited, r, f, dr, df, 0, 7, Occupied(blocker), whole);
    }
  }

  /** One iteration of a mask's ray loop: `attacks |= 1ULL << (r * 8 + f)`, then step along the ray. */
  method IncludeSquare(a: U64, ghost base: U64, ghost visited: seq<int>, r: int, f: int, dr: int, df: int, ghost whole: seq<int>)
    returns (a': U64, r': int, f': int, ghost visited': seq<int>)
    requires Walking(a, base, visited, r, f, dr, df, 1, 6, {}, whole) && Continues(r, f, dr, df, 1, 6)
    ensures Walking(a', base, visited', r', f', dr, df, 1, 6, {}, whole)
    ensures RayMeasure(r', f', dr, df) < RayMeasure(r, f, dr, df)
  {
    var sq := r * 8 + f;
    RayStep(r, f, dr, df, 1, 6, {});
    CoversAdd(a, base, visited, sq);
    RayAdvance(visited, r, f, dr, df, 1, 6, {}, whole);
    a' := a | SquareBit(sq);
    visited' := visited + [sq];
    r', f' := r + dr, f + df;
  }

  /** When the loop test fails, the visited squares are the whole ray. */
  lemma WalkDone(a: U64, base: U64, visited: seq<int>, r: int, f: int, dr: int, df: int, lo: int, hi: int, occupied: set<int>, whole: seq<int>)
    requires Walking(a, base, visited, r, f, dr, df, lo, hi, occupied, whole) && !Continues(r, f, dr, df, lo, hi)
    ensures Covers(a, base, whole)
  {
    RayLeaves(visited, r, f, dr, df, lo, hi, occupied, whole);
  }

  /**
   * One ray loop of the attack generators: add each square while the loop
   * test holds, and stop after the first square whose bit is set in `blocker`.
   */
  method AddRay(attacks: U64, ghost acc: set<int>, r0: int, f0: int, dr: int, df: int, blocker: U64) returns (a: U64)
    requires IsDirection(dr, df) && StartOk(r0, f0, dr, df, 0, 7) && Occupied(attacks) == acc
    ensures Occupied(a) == acc + Squares(Ray(r0, f0, dr, df, 0, 7, Occupied(blocker)))
  {
    ghost var whole := Ray(r0, f0, dr, df, 0, 7, Occupied(blocker));
    ghost var visited: seq<int> := [];
    a := attacks;
    var r, f := r0, f0;
    while Continues(r, f, dr, df, 0, 7)
      invariant Walking(a, attacks, visited, r, f, dr, df, 0, 7, Occupied(blocker), whole)
      decreases RayMeasure(r, f, dr, df)
    {
      var blocked;
      a, blocked, r, f, visited := VisitSquare(a, attacks, visited, r, f, dr, df, blocker, whole);
      if blocked {
        return;
      }
    }
    WalkDone(a, attacks, visited, r, f, dr, df, 0, 7, Occupied(blocker), whole);
  }

  /** One ray loop of the occupancy masks: add each square while the loop test against 1..6 holds. */
  method AddMaskRay(attacks: U64, ghost acc: set<int>, r0: int, f0: int, dr: int, df: int) returns (a: U64)
    requires IsDirection(dr, df) && StartOk(r0, f0, dr, df, 1, 6) && Occupied(attacks) == acc
    ensures Occupied(a) == acc + Squares(Ray(r0, f0, dr, df, 1, 6, {}))
  {
    ghost var whole := Ray(r0, f0, dr, df, 1, 6, {});
    ghost var visited: seq<int> := [];
    a := attacks;
    var r, f := r0, f0;
    while Continues(r, f, dr, df, 1, 6)
      invariant Walking(a, attacks, visited, r, f, dr, df, 1, 6, {}, whole)
      decreases RayMeasure(r, f, dr, df)
    {
      a, r, f, visited := IncludeSquare(a, attacks, visited, r, f, dr, df, whole);
    }
    WalkDone(a, attacks, visited, r, f, dr, df, 1, 6, {}, whole);
  }

  // ---------------------------------------------------------------
  // The generators
  // ---------------------------------------------------------------

  lemma SquaresOfFour(s1: seq<int>, s2: seq<int>, s3: seq<int>, s4: seq<int>)
    ensures Squares(s1 + s2 + s3 + s4) == {} + Squares(s1) + Squares(s2) + Squares(s3) + Squares(s4)
  {
    SquaresConcat(s1, s2);
    SquaresConcat(s1 + s2, s3);
    SquaresConcat(s1 + s2 + s3, s4);
  }

  /** The four diagonal loops of `generateBishopAttacks`, from rank index `tr` and file `tf`. */
  method BishopLoops(tr: int, tf: int, blocker: U64) returns (attacks: U64)
    requires 0 <= tr <= 7 && 0 <= tf <= 7
    ensures Occupied(attacks) == Squares(BishopRays(tr, tf, Occupied(blocker)))
  {
    EmptyBoard();
    ghost var seen: set<int> := {};
    attacks := AddRay(0, seen, tr + 1, tf + 1, 1, 1, blocker);
    seen := seen + Squares(Ray(tr + 1, tf + 1, 1, 1, 0, 7, Occupied(blocker)));
    attacks := AddRay(attacks, seen, tr + 1, tf - 1, 1, -1, blocker);
    seen := seen + Squares(Ray(tr + 1, tf - 1, 1, -1, 0, 7, Occupied(blocker)));
    attacks := AddRay(attacks, seen, tr - 1, tf + 1, -1, 1, blocker);
    seen := seen + Squares(Ray(tr - 1, tf + 1, -1, 1, 0, 7, Occupied(blocker)));
    attacks := AddRay(attacks, seen, tr - 1, tf - 1, -1, -1, blocker);
    SquaresOfFour(Ray(tr + 1, tf + 1, 1, 1, 0, 7, Occupied(blocker)),
      Ray(tr + 1, tf - 1, 1, -1, 0, 7, Occupied(blocker)),
      Ray(tr - 1, tf + 1, -1, 1, 0, 7, Occupied(blocker)),
      Ray(tr - 1, tf - 1, -1, -1, 0, 7, Occupied(blocker)));
  }

  /** `generateBishopAttacks`: the squares of the four diagonals, each up to and including its first blocker. */
  method GenerateBishopAttacks(square: int, blocker: U64) returns (attacks: U64)
    requires 0 <= square < 64
    ensures Occupied(attacks) == Squares(BishopRays(square / 8, square % 8, Occupied(blocker)))
  {
    var tr, tf := square / 8, square % 8;
    attacks := BishopLoops(tr, tf, blocker);
  }

  /** The four line loops of `generateRookAttacks`. */
  method RookLoops(tr: int, tf: int, blocker: U64) returns (attacks: U64)
    requires 0 <= tr <= 7 && 0 <= tf <= 7
    ensures Occupied(attacks) == Squares(RookRays(tr, tf, Occupied(blocker)))
  {
    EmptyBoard();
    ghost var seen: set<int> := {};
    attacks := AddRay(0, seen, tr + 1, tf, 1, 0, blocker);
    seen := seen + Squares(Ray(tr + 1, tf, 1, 0, 0, 7, Occupied(blocker)));
    attacks := AddRay(attacks, seen, tr - 1, tf, -1, 0, blocker);
    seen := seen + Squares(Ray(tr - 1, tf, -1, 0, 0, 7, Occupied(blocker)));
    attacks := AddRay(attacks, seen, tr, tf + 1, 0, 1, blocker);
    seen := seen + Squares(Ray(tr, tf + 1, 0, 1, 0, 7, Occupied(blocker)));
    attacks := AddRay(attacks, seen, tr, tf - 1, 0, -1, blocker);
    SquaresOfFour(Ray(tr + 1, tf, 1, 0, 0, 7, Occupied(blocker)),
      Ray(tr - 1, tf, -1, 0, 0, 7, Occupied(blocker)),
      Ray(tr, tf + 1, 0, 1, 0, 7, Occupied(blocker)),
      Ray(tr, tf - 1, 0, -1, 0, 7, Occupied(blocker)));
  }

  /** `generateRookAttacks`: the squares of the four lines, each up to and including its first blocker. */
  method GenerateRookAttacks(square: int, blocker: U64) returns (attacks: U64)
    requires 0 <= square < 64
    ensures Occupied(attacks) == Squares(RookRays(square / 8, square % 8, Occupied(blocker)))
  {
    var tr, tf := square / 8, square % 8;
    attacks := RookLoops(tr, tf, blocker);
  }

  /** The four diagonal loops of `maskBishopAttacks`. */
  method BishopMaskLoops(tr: int, tf: int) returns (attacks: U64)
    requires 0 <= tr <= 7 && 0 <= tf <= 7
    ensures Occupied(attacks) == Squares(BishopMaskRays(tr, tf))
  {
    EmptyBoard();
    ghost var seen: set<int> := {};
    attacks := AddMaskRay(0, seen, tr + 1, tf + 1, 1, 1);
    seen := seen + Squares(Ray(tr + 1, tf + 1, 1, 1, 1, 6, {}));
    attacks := AddMaskRay(attacks, seen, tr - 1, tf + 1, -1, 1);
    seen := seen + Squares(Ray(tr - 1, tf + 1, -1, 1, 1, 6, {}));
    attacks := AddMaskRay(attacks, seen, tr + 1, tf - 1, 1, -1);
    seen := seen + Squares(Ray(tr + 1, tf - 1, 1, -1, 1, 6, {}));
    attacks := AddMaskRay(attacks, seen, tr - 1, tf - 1, -1, -1);
    SquaresOfFour(Ray(tr + 1, tf + 1, 1, 1, 1, 6, {}),
      Ray(tr - 1, tf + 1, -1, 1, 1, 6, {}),
      Ray(tr + 1, tf - 1, 1, -1, 1, 6, {}),
      Ray(tr - 1, tf - 1, -1, -1, 1, 6, {}));
  }

  /** `maskBishopAttacks`: the relevant occupancy squares of a bishop. */
  method MaskBishopAttacks(square: int) returns (attacks: U64)
    requires 0 <= square < 64
    ensures Occupied(attacks) == Squares(BishopMaskRays(square / 8, square % 8))
  {
    var tr, tf := square / 8, square % 8;
    attacks := BishopMaskLoops(tr, tf);
  }

  /** The four line loops of `maskRookAttacks`. */
  method RookMaskLoops(tr: int, tf: int) returns (attacks: U64)
    requires 0 <= tr <= 7 && 0 <= tf <= 7
    ensures Occupied(attacks) == Squares(RookMaskRays(tr, tf))
  {
    EmptyBoard();
    ghost var seen: set<int> := {};
    attacks := AddMaskRay(0, seen, tr + 1, tf, 1, 0);
    seen := seen + Squares(Ray(tr + 1, tf, 1, 0, 1, 6, {}));
    attacks := AddMaskRay(attacks, seen, tr - 1, tf, -1, 0);
    seen := seen + Squares(Ray(tr - 1, tf, -1, 0, 1, 6, {}));
    attacks := AddMaskRay(attacks, seen, tr, tf + 1, 0, 1);
    seen := seen + Squares(Ray(tr, tf + 1, 0, 1, 1, 6, {}));
    attacks := AddMaskRay(attacks, seen, tr, tf - 1, 0, -1);
    SquaresOfFour(Ray(tr + 1, tf, 1, 0, 1, 6, {}),
      Ray(tr - 1, tf, -1, 0, 1, 6, {}),
      Ray(tr, tf + 1, 0, 1, 1, 6, {}),
      Ray(tr, tf - 1, 0, -1, 1, 6, {}));
  }

  /** `maskRookAttacks`: the relevant occupancy squares of a rook. */
  method MaskRookAttacks(square: int) returns (attacks: U64)
    requires 0 <= square < 64
    ensures Occupied(attacks) == Squares(RookMaskRays(square / 8, square % 8))
  {
    var tr, tf := square / 8, square % 8;
    attacks := RookMaskLoops(tr, tf);
  }

  // ---------------------------------------------------------------
  // Geometry of the rays on an empty board
  // ---------------------------------------------------------------

  /**
   * The cell (a, b) lies on the ray from (r, f): a coordinate that does not
   * move stays put, one that moves goes from the start to the bound it heads
   * for, and on a diagonal both move by the same amount.
   */
  predicate RayCell(r: int, f: int, dr: int, df: int, lo: int, hi: int, a: int, b: int)
  {
    (if dr == 0 then a == r else if dr == 1 then r <= a <= hi else lo <= a <= r)
    && (if df == 0 then b == f else if df == 1 then f <= b <= hi else lo <= b <= f)
    && (dr != 0 && df != 0 ==> Dist(a, r) == Dist(b, f))
  }

  /** Two cells on the board with the same index are the same cell. */
  lemma CellInjective(a: int, b: int, c: int, d: int)
    requires 0 <= b <= 7 && 0 <= d <= 7
    ensures a * 8 + b == c * 8 + d <==> a == c && b == d
  {
  }

  lemma CellStep(r: int, f: int, dr: int, df: int, lo: int, hi: int, a: int, b: int)
    requires IsDirection(dr, df) && 0 <= lo && hi <= 7 && StartOk(r, f, dr, df, lo, hi)
    requires Continues(r, f, dr, df, lo, hi)
    ensures RayCell(r, f, dr, df, lo, hi, a, b) <==> (a == r && b == f) || RayCell(r + dr, f + df, dr, df, lo, hi, a, b)
  {
  }

  lemma CellEnd(r: int, f: int, dr: int, df: int, lo: int, hi: int, a: int, b: int)
    requires IsDirection(dr, df) && StartOk(r, f, dr, df, lo, hi) && !Continues(r, f, dr, df, lo, hi)
    ensures !RayCell(r, f, dr, df, lo, hi, a, b)
  {
  }

  /** On an empty board a ray holds exactly the cells of its line up to the bound. */
  lemma {:induction false} EmptyRayCells(r: int, f: int, dr: int, df: int, lo: int, hi: int, a: int, b: int)
    requires IsDirection(dr, df) && 0 <= lo && hi <= 7 && StartOk(r, f, dr, df, lo, hi)
    requires 0 <= a <= 7 && 0 <= b <= 7
    ensures a * 8 + b in Ray(r, f, dr, df, lo, hi, {}) <==> RayCell(r, f, dr, df, lo, hi, a, b)
    decreases RayMeasure(r, f, dr, df)
  {
    if Continues(r, f, dr, df, lo, hi) {
      RayStep(r, f, dr, df, lo, hi, {});
      CellInjective(a, b, r, f);
      CellStep(r, f, dr, df, lo, hi, a, b);
      EmptyRayCells(r + dr, f + df, dr, df, lo, hi, a, b);
    } else {
      CellEnd(r, f, dr, df, lo, hi, a, b);
    }
  }

  /** Every square a ray lists is on the board. */
  lemma {:induction false} RayOnBoard(r: int, f: int, dr: int, df: int, lo: int, hi: int, occupied: set<int>)
    requires IsDirection(dr, df) && 0 <= lo && hi <= 7 && StartOk(r, f, dr, df, lo, hi)
    ensures forall t :: t in Ray(r, f, dr, df, lo, hi, occupied) ==> 0 <= t < 64
    decreases RayMeasure(r, f, dr, df)
  {
    if Continues(r, f, dr, df, lo, hi) {
      RayStep(r, f, dr, df, lo, hi, occupied);
      RayOnBoard(r + dr, f + df, dr, df, lo, hi, occupied);
    }
  }

  /** With no blockers the rook attacks every other square of its rank and its file. */
  lemma RookEmptyBoard(tr: int, tf: int, a: int, b: int)
    requires 0 <= tr <= 7 && 0 <= tf <= 7 && 0 <= a <= 7 && 0 <= b <= 7
    ensures a * 8 + b in RookRays(tr, tf, {}) <==> !(a == tr && b == tf) && (a == tr || b == tf)
  {
    EmptyRayCells(tr + 1, tf, 1, 0, 0, 7, a, b);
    EmptyRayCells(tr - 1, tf, -1, 0, 0, 7, a, b);
    EmptyRayCells(tr, tf + 1, 0, 1, 0, 7, a, b);
    EmptyRayCells(tr, tf - 1, 0, -1, 0, 7, a, b);
  }

  /** With no blockers the bishop attacks every other square of its two diagonals. */
  lemma BishopEmptyBoard(tr: int, tf: int, a: int, b: int)
    requires 0 <= tr <= 7 && 0 <= tf <= 7 && 0 <= a <= 7 && 0 <= b <= 7
    ensures a * 8 + b in BishopRays(tr, tf, {}) <==> !(a == tr && b == tf) && Dist(a, tr) == Dist(b, tf)
  {
    EmptyRayCells(tr + 1, tf + 1, 1, 1, 0, 7, a, b);
    EmptyRayCells(tr + 1, tf - 1, 1, -1, 0, 7, a, b);
    EmptyRayCells(tr - 1, tf + 1, -1, 1, 0, 7, a, b);
    EmptyRayCells(tr - 1, tf - 1, -1, -1, 0, 7, a, b);
  }

  /** The rook mask is its rank and file without the rook's square and without the board edges. */
  lemma RookMaskCells(tr: int, tf: int, a: int, b: int)
    requires 0 <= tr <= 7 && 0 <= tf <= 7 && 0 <= a <= 7 && 0 <= b <= 7
    ensures a * 8 + b in RookMaskRays(tr, tf) <==>
      (a == tr && b != tf && 1 <= b <= 6) || (b == tf && a != tr && 1 <= a <= 6)
  {
    EmptyRayCells(tr + 1, tf, 1, 0, 1, 6, a, b);
    EmptyRayCells(tr - 1, tf, -1, 0, 1, 6, a, b);
    EmptyRayCells(tr, tf + 1, 0, 1, 1, 6, a, b);
    EmptyRayCells(tr, tf - 1, 0, -1, 1, 6, a, b);
  }

  /** The bishop mask is its diagonals without the bishop's square and without the board edges. */
  lemma BishopMaskCells(tr: int, tf: int, a: int, b: int)
    requires 0 <= tr <= 7 && 0 <= tf <= 7 && 0 <= a <= 7 && 0 <= b <= 7
    ensures a * 8 + b in BishopMaskRays(tr, tf) <==>
      !(a == tr && b == tf) && Dist(a, tr) == Dist(b, tf) && 1 <= a <= 6 && 1 <= b <= 6
  {
    EmptyRayCells(tr + 1, tf + 1, 1, 1, 1, 6, a, b);
    EmptyRayCells(tr - 1, tf + 1, -1, 1, 1, 6, a, b);
    EmptyRayCells(tr + 1, tf - 1, 1, -1, 1, 6, a, b);
    EmptyRayCells(tr - 1, tf - 1, -1, -1, 1, 6, a, b);
  }

  /** Every square of a rook mask is on the board. */
  lemma RookMaskOnBoard(tr: int, tf: int)
    requires 0 <= tr <= 7 && 0 <= tf <= 7
    ensures forall t :: t in RookMaskRays(tr, tf) ==> 0 <= t < 64
  {
    RayOnBoard(tr + 1, tf, 1, 0, 1, 6, {});
    RayOnBoard(tr - 1, tf, -1, 0, 1, 6, {});
    RayOnBoard(tr, tf + 1, 0, 1, 1, 6, {});
    RayOnBoard(tr, tf - 1, 0, -1, 1, 6, {});
  }

  lemma BishopMaskOnBoard(tr: int, tf: int)
    requires 0 <= tr <= 7 && 0 <= tf <= 7
    ensures forall t :: t in BishopMaskRays(tr, tf) ==> 0 <= t < 64
  {
    RayOnBoard(tr + 1, tf + 1, 1, 1, 1, 6, {});
    RayOnBoard(tr - 1, tf + 1, -1, 1, 1, 6, {});
    RayOnBoard(tr + 1, tf - 1, 1, -1, 1, 6, {});
    RayOnBoard(tr - 1, tf - 1, -1, -1, 1, 6, {});
  }

  lemma RookMaskSquare(tr: int, tf: int, t: int)
    requires 0 <= tr <= 7 && 0 <= tf <= 7 && 0 <= t < 64
    ensures t in RookMaskRays(tr, tf) ==> t in RookRays(tr, tf, {})
  {
    var a, b := t / 8, t % 8;
    assert t == a * 8 + b;
    RookMaskCells(tr, tf, a, b);
    RookEmptyBoard(tr, tf, a, b);
  }

  lemma BishopMaskSquare(tr: int, tf: int, t: int)
    requires 0 <= tr <= 7 && 0 <= tf <= 7 && 0 <= t < 64
    ensures t in BishopMaskRays(tr, tf) ==> t in BishopRays(tr, tf, {})
  {
    var a, b := t / 8, t % 8;
    assert t == a * 8 + b;
    BishopMaskCells(tr, tf, a, b);
    BishopEmptyBoard(tr, tf, a, b);
  }

  /** The rook's occupancy mask leaves out only edge squares: it lies inside the empty-board attacks. */
  lemma RookMaskWithinAttacks(tr: int, tf: int)
    requires 0 <= tr <= 7 && 0 <= tf <= 7
    ensures Squares(RookMaskRays(tr, tf)) <= Squares(RookRays(tr, tf, {}))
  {
    RookMaskOnBoard(tr, tf);
    forall t | t in RookMaskRays(tr, tf)
      ensures t in RookRays(tr, tf, {})
    {
      RookMaskSquare(tr, tf, t);
    }
  }

  /** The same for the bishop's mask and diagonals. */
  lemma BishopMaskWithinAttacks(tr: int, tf: int)
    requires 0 <= tr <= 7 && 0 <= tf <= 7
    ensures Squares(BishopMaskRays(tr, tf)) <= Squares(BishopRays(tr, tf, {}))
  {
    BishopMaskOnBoard(tr, tf);
    forall t | t in BishopMaskRays(tr, tf)
      ensures t in BishopRays(tr, tf, {})
    {
      BishopMaskSquare(tr, tf, t);
    }
  }

  // ---------------------------------------------------------------
  // Counting attacked squares
  // ---------------------------------------------------------------

  /** The number of integers from `lo` to `hi`. */
  function Gap(lo: int, hi: int): nat
  {
    if lo <= hi then hi - lo + 1 else 0
  }

  function Min(x: int, y: int): int
  {
    if x <= y then x else y
  }

  /** How many squares an empty-board ray visits before its loop test fails. */
  function Steps(r: int, f: int, dr: int, df: int, lo: int, hi: int): int
  {
    var rs := if dr == 1 then Gap(r, hi) else Gap(lo, r);
    var fs := if df == 1 then Gap(f, hi) else Gap(lo, f);
    if dr == 0 then fs else if df == 0 then rs else Min(rs, fs)
  }

  lemma {:induction false} RayLength(r: int, f: int, dr: int, df: int, lo: int, hi: int)
    requires IsDirection(dr, df) && 0 <= lo && hi <= 7 && StartOk(r, f, dr, df, lo, hi)
    ensures |Ray(r, f, dr, df, lo, hi, {})| == Steps(r, f, dr, df, lo, hi)
    decreases RayMeasure(r, f, dr, df)
  {
    if Continues(r, f, dr, df, lo, hi) {
      RayStep(r, f, dr, df, lo, hi, {});
      RayLength(r + dr, f + df, dr, df, lo, hi);
      StepsAdvance(r, f, dr, df, lo, hi);
    } else {
      StepsEnd(r, f, dr, df, lo, hi);
    }
  }

  lemma StepsAdvance(r: int, f: int, dr: int, df: int, lo: int, hi: int)
    requires IsDirection(dr, df) && StartOk(r, f, dr, df, lo, hi) && Continues(r, f, dr, df, lo, hi)
    ensures Steps(r, f, dr, df, lo, hi) == Steps(r + dr, f + df, dr, df, lo, hi) + 1
  {
  }

  lemma StepsEnd(r: int, f: int, dr: int, df: int, lo: int, hi: int)
    requires IsDirection(dr, df) && StartOk(r, f, dr, df, lo, hi) && !Continues(r, f, dr, df, lo, hi)
    ensures Steps(r, f, dr, df, lo, hi) == 0
  {
  }

  predicate Distinct(s: seq<int>)
  {
    forall i, j :: 0 <= i < j < |s| ==> s[i] != s[j]
  }

  predicate Disjoint(s: seq<int>, u: seq<int>)
  {
    forall t :: t in s ==> t !in u
  }

  /** A list without repeats has as many squares as entries. */
  lemma {:induction false} DistinctCard(s: seq<int>)
    requires Distinct(s)
    ensures |Squares(s)| == |s|
  {
    if s != [] {
      assert Distinct(s[1..]) by {
        forall i, j | 0 <= i < j < |s[1..]|
          ensures s[1..][i] != s[1..][j]
        {
          assert s[1..][i] == s[i + 1] && s[1..][j] == s[j + 1];
        }
      }
      DistinctCard(s[1..]);
      assert s[0] !in s[1..];
      assert Squares(s) == {s[0]} + Squares(s[1..]) by {
        assert s == [s[0]] + s[1..];
      }
    }
  }

  lemma DistinctConcat(s: seq<int>, u: seq<int>)
    requires Distinct(s) && Distinct(u) && Disjoint(s, u)
    ensures Distinct(s + u)
  {
    forall i, j | 0 <= i < j < |s + u|
      ensures (s + u)[i] != (s + u)[j]
    {
      if j < |s| {
      } else if i < |s| {
        assert (s + u)[i] in s && (s + u)[j] in u;
      } else {
        assert (s + u)[i] == u[i - |s|] && (s + u)[j] == u[j - |s|];
      }
    }
  }

  lemma DisjointAfter(s: seq<int>, u: seq<int>, w: seq<int>)
    requires Disjoint(s, w) && Disjoint(u, w)
    ensures Disjoint(s + u, w)
  {
  }

  /** Four rays without repeats and pairwise apart list as many squares as their lengths add up to. */
  lemma FourDistinct(s1: seq<int>, s2: seq<int>, s3: seq<int>, s4: seq<int>)
    requires Distinct(s1) && Distinct(s2) && Distinct(s3) && Distinct(s4)
    requires Disjoint(s1, s2) && Disjoint(s1, s3) && Disjoint(s1, s4)
    requires Disjoint(s2, s3) && Disjoint(s2, s4) && Disjoint(s3, s4)
    ensures |Squares(s1 + s2 + s3 + s4)| == |s1| + |s2| + |s3| + |s4|
  {
    DistinctConcat(s1, s2);
    DisjointAfter(s1, s2, s3);
    DistinctConcat(s1 + s2, s3);
    DisjointAfter(s1, s2, s4);
    DisjointAfter(s1 + s2, s3, s4);
    DistinctConcat(s1 + s2 + s3, s4);
    DistinctCard(s1 + s2 + s3 + s4);
  }

  /** A ray on an empty board never comes back to a square. */
  lemma {:induction false} RayDistinct(r: int, f: int, dr: int, df: int, lo: int, hi: int)
    requires IsDirection(dr, df) && 0 <= lo && hi <= 7 && StartOk(r, f, dr, df, lo, hi)
    ensures Distinct(Ray(r, f, dr, df, lo, hi, {}))
    decreases RayMeasure(r, f, dr, df)
  {
    if Continues(r, f, dr, df, lo, hi) {
      RayStep(r, f, dr, df, lo, hi, {});
      RayDistinct(r + dr, f + df, dr, df, lo, hi);
      EmptyRayCells(r + dr, f + df, dr, df, lo, hi, r, f);
      var rest := Ray(r + dr, f + df, dr, df, lo, hi, {});
      var s := [r * 8 + f] + rest;
      forall i, j | 0 <= i < j < |s|
        ensures s[i] != s[j]
      {
        if i == 0 {
          assert s[j] == rest[j - 1];
        } else {
          assert s[i] == rest[i - 1] && s[j] == rest[j - 1];
        }
      }
    }
  }

  /** Two empty-board rays whose lines share no cell share no square. */
  lemma RaysApart(r1: int, f1: int, dr1: int, df1: int, r2: int, f2: int, dr2: int, df2: int, lo: int, hi: int)
    requires IsDirection(dr1, df1) && 0 <= lo && hi <= 7 && StartOk(r1, f1, dr1, df1, lo, hi)
    requires IsDirection(dr2, df2) && StartOk(r2, f2, dr2, df2, lo, hi)
    requires forall a, b :: RayCell(r1, f1, dr1, df1, lo, hi, a, b) ==> !RayCell(r2, f2, dr2, df2, lo, hi, a, b)
    ensures Disjoint(Ray(r1, f1, dr1, df1, lo, hi, {}), Ray(r2, f2, dr2, df2, lo, hi, {}))
  {
    RayOnBoard(r1, f1, dr1, df1, lo, hi, {});
    forall t | t in Ray(r1, f1, dr1, df1, lo, hi, {})
      ensures t !in Ray(r2, f2, dr2, df2, lo, hi, {})
    {
      var a, b := t / 8, t % 8;
      assert t == a * 8 + b;
      EmptyRayCells(r1, f1, dr1, df1, lo, hi, a, b);
      EmptyRayCells(r2, f2, dr2, df2, lo, hi, a, b);
    }
  }

  /** With no blockers a rook attacks 14 squares from every square. */
  lemma RookEmptyCount(tr: int, tf: int)
    requires 0 <= tr <= 7 && 0 <= tf <= 7
    ensures |Squares(RookRays(tr, tf, {}))| == 14
  {
    RayDistinct(tr + 1, tf, 1, 0, 0, 7);
    RayDistinct(tr - 1, tf, -1, 0, 0, 7);
    RayDistinct(tr, tf + 1, 0, 1, 0, 7);
    RayDistinct(tr, tf - 1, 0, -1, 0, 7);
    RayLength(tr + 1, tf, 1, 0, 0, 7);
    RayLength(tr - 1, tf, -1, 0, 0, 7);
    RayLength(tr, tf + 1, 0, 1, 0, 7);
    RayLength(tr, tf - 1, 0, -1, 0, 7);
    RaysApart(tr + 1, tf, 1, 0, tr - 1, tf, -1, 0, 0, 7);
    RaysApart(tr + 1, tf, 1, 0, tr, tf + 1, 0, 1, 0, 7);
    RaysApart(tr + 1, tf, 1, 0, tr, tf - 1, 0, -1, 0, 7);
    RaysApart(tr - 1, tf, -1, 0, tr, tf + 1, 0, 1, 0, 7);
    RaysApart(tr - 1, tf, -1, 0, tr, tf - 1, 0, -1, 0, 7);
    RaysApart(tr, tf + 1, 0, 1, tr, tf - 1, 0, -1, 0, 7);
    FourDistinct(Ray(tr + 1, tf, 1, 0, 0, 7, {}), Ray(tr - 1, tf, -1, 0, 0, 7, {}),
      Ray(tr, tf + 1, 0, 1, 0, 7, {}), Ray(tr, tf - 1, 0, -1, 0, 7, {}));
  }

  /** With no blockers a bishop attacks, on each diagonal, as many squares as the nearer edge allows. */
  lemma BishopEmptyCount(tr: int, tf: int)
    requires 0 <= tr <= 7 && 0 <= tf <= 7
    ensures |Squares(BishopRays(tr, tf, {}))| == Min(7 - tr, 7 - tf) + Min(7 - tr, tf) + Min(tr, 7 - tf) + Min(tr, tf)
  {
    BishopDiagonals(tr, tf);
    BishopDiagonalsApart(tr, tf);
    FourDistinct(Ray(tr + 1, tf + 1, 1, 1, 0, 7, {}), Ray(tr + 1, tf - 1, 1, -1, 0, 7, {}),
      Ray(tr - 1, tf + 1, -1, 1, 0, 7, {}), Ray(tr - 1, tf - 1, -1, -1, 0, 7, {}));
  }

  lemma BishopDiagonals(tr: int, tf: int)
    requires 0 <= tr <= 7 && 0 <= tf <= 7
    ensures Distinct(Ray(tr + 1, tf + 1, 1, 1, 0, 7, {})) && |Ray(tr + 1, tf + 1, 1, 1, 0, 7, {})| == Min(7 - tr, 7 - tf)
    ensures Distinct(Ray(tr + 1, tf - 1, 1, -1, 0, 7, {})) && |Ray(tr + 1, tf - 1, 1, -1, 0, 7, {})| == Min(7 - tr, tf)
    ensures Distinct(Ray(tr - 1, tf + 1, -1, 1, 0, 7, {})) && |Ray(tr - 1, tf + 1, -1, 1, 0, 7, {})| == Min(tr, 7 - tf)
    ensures Distinct(Ray(tr - 1, tf - 1, -1, -1, 0, 7, {})) && |Ray(tr - 1, tf - 1, -1, -1, 0, 7, {})| == Min(tr, tf)
  {
    RayDistinct(tr + 1, tf + 1, 1, 1, 0, 7);
    RayDistinct(tr + 1, tf - 1, 1, -1, 0, 7);
    RayDistinct(tr - 1, tf + 1, -1, 1, 0, 7);
    RayDistinct(tr - 1, tf - 1, -1, -1, 0, 7);
    RayLength(tr + 1, tf + 1, 1, 1, 0, 7);
    RayLength(tr + 1, tf - 1, 1, -1, 0, 7);
    RayLength(tr - 1, tf + 1, -1, 1, 0, 7);
    RayLength(tr - 1, tf - 1, -1, -1, 0, 7);
  }

  lemma BishopDiagonalsApart(tr: int, tf: int)
    requires 0 <= tr <= 7 && 0 <= tf <= 7
    ensures Disjoint(Ray(tr + 1, tf + 1, 1, 1, 0, 7, {}), Ray(tr + 1, tf - 1, 1, -1, 0, 7, {}))
    ensures Disjoint(Ray(tr + 1, tf + 1, 1, 1, 0, 7, {}), Ray(tr - 1, tf + 1, -1, 1, 0, 7, {}))
    ensures Disjoint(Ray(tr + 1, tf + 1, 1, 1, 0, 7, {}), Ray(tr - 1, tf - 1, -1, -1, 0, 7, {}))
    ensures Disjoint(Ray(tr + 1, tf - 1, 1, -1, 0, 7, {}), Ray(tr - 1, tf + 1, -1, 1, 0, 7, {}))
    ensures Disjoint(Ray(tr + 1, tf - 1, 1, -1, 0, 7, {}), Ray(tr - 1, tf - 1, -1, -1, 0, 7, {}))
    ensures Disjoint(Ray(tr - 1, tf + 1, -1, 1, 0, 7, {}), Ray(tr - 1, tf - 1, -1, -1, 0, 7, {}))
  {
    RaysApart(tr + 1, tf + 1, 1, 1, tr + 1, tf - 1, 1, -1, 0, 7);
    RaysApart(tr + 1, tf + 1, 1, 1, tr - 1, tf + 1, -1, 1, 0, 7);
    RaysApart(tr + 1, tf + 1, 1, 1, tr - 1, tf - 1, -1, -1, 0, 7);
    RaysApart(tr + 1, tf - 1, 1, -1, tr - 1, tf + 1, -1, 1, 0, 7);
    RaysApart(tr + 1, tf - 1, 1, -1, tr - 1, tf - 1, -1, -1, 0, 7);
    RaysApart(tr - 1, tf + 1, -1, 1, tr - 1, tf - 1, -1, -1, 0, 7);
  }

  /** The rook mask has 5 squares along a line from an inner square and 6 from an edge square. */
  lemma RookMaskCount(tr: int, tf: int)
    requires 0 <= tr <= 7 && 0 <= tf <= 7
    ensures |Squares(RookMaskRays(tr, tf))| == (if 1 <= tr <= 6 then 5 else 6) + (if 1 <= tf <= 6 then 5 else 6)
  {
    RayDistinct(tr + 1, tf, 1, 0, 1, 6);
    RayDistinct(tr - 1, tf, -1, 0, 1, 6);
    RayDistinct(tr, tf + 1, 0, 1, 1, 6);
    RayDistinct(tr, tf - 1, 0, -1, 1, 6);
    RayLength(tr + 1, tf, 1, 0, 1, 6);
    RayLength(tr - 1, tf, -1, 0, 1, 6);
    RayLength(tr, tf + 1, 0, 1, 1, 6);
    RayLength(tr, tf - 1, 0, -1, 1, 6);
    RaysApart(tr + 1, tf, 1, 0, tr - 1, tf, -1, 0, 1, 6);
    RaysApart(tr + 1, tf, 1, 0, tr, tf + 1, 0, 1, 1, 6);
    RaysApart(tr + 1, tf, 1, 0, tr, tf - 1, 0, -1, 1, 6);
    RaysApart(tr - 1, tf, -1, 0, tr, tf + 1, 0, 1, 1, 6);
    RaysApart(tr - 1, tf, -1, 0, tr, tf - 1, 0, -1, 1, 6);
    RaysApart(tr, tf + 1, 0, 1, tr, tf - 1, 0, -1, 1, 6);
    FourDistinct(Ray(tr + 1, tf, 1, 0, 1, 6, {}), Ray(tr - 1, tf, -1, 0, 1, 6, {}),
      Ray(tr, tf + 1, 0, 1, 1, 6, {}), Ray(tr, tf - 1, 0, -1, 1, 6, {}));
  }

  /** `countBits` is the number of occupied squares. */
  lemma CountIsOccupied(b: U64)
    ensures CountBits(b) == |Occupied(b)|
  {
    var s := SetSquares(b);
    SetSquaresFromSorted(b, 0);
    assert Distinct(s);
    DistinctCard(s);
    forall t
      ensures t in Squares(s) <==> t in Occupied(b)
    {
      SetSquaresMembers(b, t);
    }
    assert Squares(s) == Occupied(b);
  }

  /** `generateRookAttacks(square, 0)` sets 14 bits, whatever the square. */
  lemma RookEmptyBits(square: int, attacks: U64)
    requires 0 <= square < 64 && Occupied(attacks) == Squares(RookRays(square / 8, square % 8, Occupied(0)))
    ensures CountBits(attacks) == 14
  {
    EmptyBoard();
    RookEmptyCount(square / 8, square % 8);
    CountIsOccupied(attacks);
  }

  /** `generateBishopAttacks(square, 0)` sets as many bits as the four diagonals have squares: 13 from e4 (square 36). */
  lemma BishopEmptyBits(square: int, attacks: U64)
    requires 0 <= square < 64 && Occupied(attacks) == Squares(BishopRays(square / 8, square % 8, Occupied(0)))
    ensures var tr, tf := square / 8, square % 8;
      CountBits(attacks) == Min(7 - tr, 7 - tf) + Min(7 - tr, tf) + Min(tr, 7 - tf) + Min(tr, tf)
    ensures square == 36 ==> CountBits(attacks) == 13
  {
    EmptyBoard();
    BishopEmptyCount(square / 8, square % 8);
    CountIsOccupied(attacks);
  }

  // ---------------------------------------------------------------
  // Blockers
  // ---------------------------------------------------------------

  /**
   * A ray with blockers is the empty-board ray cut after its first occupied
   * square: a prefix of it, no occupied square before its last one, and when
   * it is shorter its last square is occupied.
   */
  lemma {:induction false} RayStopsAtBlocker(r: int, f: int, dr: int, df: int, lo: int, hi: int, occupied: set<int>)
    requires IsDirection(dr, df) && 0 <= lo && hi <= 7 && StartOk(r, f, dr, df, lo, hi)
    ensures |Ray(r, f, dr, df, lo, hi, occupied)| <= |Ray(r, f, dr, df, lo, hi, {})|
    ensures Ray(r, f, dr, df, lo, hi, occupied) == Ray(r, f, dr, df, lo, hi, {})[..|Ray(r, f, dr, df, lo, hi, occupied)|]
    ensures forall i :: 0 <= i < |Ray(r, f, dr, df, lo, hi, occupied)| - 1 ==> Ray(r, f, dr, df, lo, hi, occupied)[i] !in occupied
    ensures |Ray(r, f, dr, df, lo, hi, occupied)| < |Ray(r, f, dr, df, lo, hi, {})| ==>
      Ray(r, f, dr, df, lo, hi, occupied) != [] && Ray(r, f, dr, df, lo, hi, occupied)[|Ray(r, f, dr, df, lo, hi, occupied)| - 1] in occupied
    decreases RayMeasure(r, f, dr, df)
  {
    if Continues(r, f, dr, df, lo, hi) {
      RayStep(r, f, dr, df, lo, hi, occupied);
      RayStep(r, f, dr, df, lo, hi, {});
      if r * 8 + f !in occupied {
        RayStopsAtBlocker(r + dr, f + df, dr, df, lo, hi, occupied);
        var rest := Ray(r + dr, f + df, dr, df, lo, hi, occupied);
        var full := Ray(r + dr, f + df, dr, df, lo, hi, {});
        assert ([r * 8 + f] + full)[..1 + |rest|] == [r * 8 + f] + full[..|rest|];
        var s := [r * 8 + f] + rest;
        forall i | 0 <= i < |s| - 1
          ensures s[i] !in occupied
        {
          if i > 0 {
            assert s[i] == rest[i - 1];
          }
        }
        if |s| < 1 + |full| {
          assert s[|s| - 1] == rest[|rest| - 1];
        }
      }
    }
  }

  // ---------------------------------------------------------------
  // Occupancy enumeration
  // ---------------------------------------------------------------

  /** `index & (1 << k)` on the engine's 32-bit `int`. */
  predicate IndexBit(index: bv32, k: nat)
    requires k < 32
  {
    (index & (1 << k)) != 0
  }

  /** The squares of `s` that the low bits of `index` pick: bit k picks `s[k]`. */
  function Picked(index: bv32, s: seq<int>): seq<int>
    requires |s| <= 32
  {
    if s == [] then []
    else Picked(index, s[..|s| - 1]) + (if IndexBit(index, |s| - 1) then [s[|s| - 1]] else [])
  }

  lemma PickedStep(index: bv32, s: seq<int>, count: nat)
    requires count < |s| && count < 32
    ensures Picked(index, s[..count + 1]) == Picked(index, s[..count]) + (if IndexBit(index, count) then [s[count]] else [])
  {
    var t := s[..count + 1];
    assert t[..|t| - 1] == s[..count] && t[|t| - 1] == s[count];
  }

  /**
   * `setOccupancy(index, bitsInMask, attackMask)`: walks the lowest
   * `bitsInMask` squares of the mask from the lowest up and keeps the k-th
   * one when bit k of `index` is set.
   */
  method SetOccupancy(index: bv32, bitsInMask: int, attackMask: U64) returns (occupancy: U64)
    requires bitsInMask <= CountBits(attackMask) && bitsInMask <= 32
    ensures bitsInMask <= 0 ==> occupancy == 0
    ensures 0 <= bitsInMask ==> Occupied(occupancy) == Squares(Picked(index, SetSquares(attackMask)[..bitsInMask]))
  {
    ghost var listed := SetSquares(attackMask);
    ghost var picked: seq<int> := [];
    EmptyBoard();
    occupancy := 0;
    var mask := attackMask;
    var count := 0;
    while count < bitsInMask
      invariant 0 <= count <= |listed| && count <= 32 && (count <= bitsInMask || count == 0)
      invariant SetSquares(mask) == listed[count..]
      invariant picked == Picked(index, listed[..count])
      invariant Covers(occupancy, 0, picked)
      invariant count == 0 ==> occupancy == 0
    {
      occupancy, mask, picked := OccupancyStep(index, occupancy, mask, listed, picked, count);
      count := count + 1;
    }
    assert Occupied(0) + Squares(picked) == Squares(picked);
  }

  /** One pass of the `setOccupancy` loop: pop the lowest mask square and keep it when bit `count` is set. */
  method OccupancyStep(index: bv32, occupancy: U64, mask: U64, ghost listed: seq<int>, ghost picked: seq<int>, count: int)
    returns (occupancy': U64, mask': U64, ghost picked': seq<int>)
    requires 0 <= count < |listed| && count < 32 && SetSquares(mask) == listed[count..]
    requires picked == Picked(index, listed[..count]) && Covers(occupancy, 0, picked)
    ensures SetSquares(mask') == listed[count + 1..]
    ensures picked' == Picked(index, listed[..count + 1]) && Covers(occupancy', 0, picked')
  {
    ZeroIffNoSquares(mask);
    var square := Lsb(mask);
    PopLsb(mask);
    assert listed[count..][1..] == listed[count + 1..];
    mask' := PopBit(mask, square);
    PickedStep(index, listed, count);
    occupancy', picked' := occupancy, picked;
    if (index & (1 << count)) != 0 {
      CoversAdd(occupancy, 0, picked, square);
      occupancy' := occupancy | SquareBit(square);
      picked' := picked + [square];
    }
  }

  lemma {:induction false} PickedWithin(index: bv32, s: seq<int>)
    requires |s| <= 32
    ensures Squares(Picked(index, s)) <= Squares(s)
    decreases |s|
  {
    if s != [] {
      var n := |s| - 1;
      var p := s[..n];
      PickedWithin(index, p);
      assert s == p + [s[|s| - 1]];
      SquaresConcat(p, [s[|s| - 1]]);
      SquaresConcat(Picked(index, p), if IndexBit(index, n) then [s[n]] else []);
    }
  }

  /** With distinct squares, the k-th square is picked exactly when bit k of the index is set. */
  lemma {:induction false} PickedMember(index: bv32, s: seq<int>, k: int)
    requires |s| <= 32 && Distinct(s) && 0 <= k < |s|
    ensures s[k] in Squares(Picked(index, s)) <==> IndexBit(index, k)
    decreases |s|
  {
    var n := |s| - 1;
    var p := s[..n];
    assert Distinct(p) by {
      forall i, j | 0 <= i < j < |p|
        ensures p[i] != p[j]
      {
        assert p[i] == s[i] && p[j] == s[j];
      }
    }
    PickedWithin(index, p);
    SquaresConcat(Picked(index, p), if IndexBit(index, n) then [s[n]] else []);
    if k == n {
      assert s[n] !in p by {
        forall i | 0 <= i < n
          ensures p[i] != s[n]
        {
          assert p[i] == s[i];
        }
      }
    } else {
      assert s[k] == p[k] && s[k] != s[n];
      PickedMember(index, p, k);
    }
  }

  /** The squares of a board, in increasing order, are all different. */
  lemma SetSquaresDistinct(b: U64, n: int)
    requires 0 <= n <= |SetSquares(b)|
    ensures Distinct(SetSquares(b)[..n])
  {
    SetSquaresFromSorted(b, 0);
    var s := SetSquares(b)[..n];
    forall i, j | 0 <= i < j < |s|
      ensures s[i] != s[j]
    {
      assert s[i] == SetSquares(b)[i] && s[j] == SetSquares(b)[j];
    }
  }

  /**
   * What `setOccupancy` promises: the occupancy lies within the mask, and the
   * k-th lowest mask square is occupied exactly when bit k of the index is set.
   */
  lemma OccupancyBits(index: bv32, bitsInMask: int, attackMask: U64, occupancy: U64, k: int)
    requires 0 <= bitsInMask <= CountBits(attackMask) && bitsInMask <= 32
    requires Occupied(occupancy) == Squares(Picked(index, SetSquares(attackMask)[..bitsInMask]))
    ensures Occupied(occupancy) <= Occupied(attackMask)
    ensures 0 <= k < bitsInMask ==> (IsSet(occupancy, SetSquares(attackMask)[k]) <==> IndexBit(index, k))
  {
    var s := SetSquares(attackMask)[..bitsInMask];
    PickedWithin(index, s);
    forall t | t in Squares(s)
      ensures t in Occupied(attackMask)
    {
      SetSquaresMembers(attackMask, t);
    }
    if 0 <= k < bitsInMask {
      SetSquaresDistinct(attackMask, bitsInMask);
      PickedMember(index, s, k);
      assert s[k] == SetSquares(attackMask)[k];
      SetSquaresMembers(attackMask, s[k]);
    }
  }

  /** Two indices that differ in one of the low `bitsInMask` bits give different occupancies. */
  lemma OccupancyInjective(i1: bv32, i2: bv32, bitsInMask: int, attackMask: U64, k: int)
    requires 0 <= bitsInMask <= CountBits(attackMask) && bitsInMask <= 32
    requires 0 <= k < bitsInMask && IndexBit(i1, k) != IndexBit(i2, k)
    ensures Squares(Picked(i1, SetSquares(attackMask)[..bitsInMask])) != Squares(Picked(i2, SetSquares(attackMask)[..bitsInMask]))
  {
    var s := SetSquares(attackMask)[..bitsInMask];
    SetSquaresDistinct(attackMask, bitsInMask);
    PickedMember(i1, s, k);
    PickedMember(i2, s, k);
  }
}
