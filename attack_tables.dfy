// Precomputed attack masks of the bitboard engine: the leaper masks (pawn,
// knight, king) are single-bit shifts filtered by file masks; the slider
// attacks walk rays square by square and stop at the first blocker.

module AttackTables {
  import opened BitboardTypes

  // ---------------------------------------------------------------
  // Leaper masks
  // ---------------------------------------------------------------

  /** Every square: the king's straight steps test `if (shifted)`, which is `shifted & ALL_SQUARES != 0`. */
  const ALL_SQUARES: U64 := 0xFFFF_FFFF_FFFF_FFFF

  /**
   * One `if (shifted & mask) attacks |= shifted;` line of a leaper mask: the
   * piece bit shifted by a constant, kept when it meets the file mask.
   */
  datatype Step = Step(shifted: U64, mask: U64)

  predicate Fires(st: Step)
  {
    st.shifted & st.mask != 0
  }

  function Keep(attacks: U64, st: Step): U64
  {
    if Fires(st) then attacks | st.shifted else attacks
  }

  /** The steps from index `i` on, applied one after the other to `attacks`. */
  function KeepFrom(steps: seq<Step>, i: nat, attacks: U64): U64
    requires i <= |steps|
    decreases |steps| - i
  {
    if i == |steps| then attacks else KeepFrom(steps, i + 1, Keep(attacks, steps[i]))
  }

  /** Some step from index `i` on fires and puts square `t` on the board. */
  predicate SomeStepSets(steps: seq<Step>, i: nat, t: int)
    requires i <= |steps| && 0 <= t < 64
    decreases |steps| - i
  {
    i < |steps| && ((Fires(steps[i]) && IsSet(steps[i].shifted, t)) || SomeStepSets(steps, i + 1, t))
  }

  /** Knight jumps: four toward rank 8 (`>>`), then four toward rank 1 (`<<`). */
  function KnightSteps(bitboard: U64): seq<Step>
  {
    [Step(bitboard >> 17, NOT_H_FILE), Step(bitboard >> 15, NOT_A_FILE),
     Step(bitboard >> 10, NOT_HG_FILE), Step(bitboard >> 6, NOT_AB_FILE),
     Step(bitboard << 17, NOT_A_FILE), Step(bitboard << 15, NOT_H_FILE),
     Step(bitboard << 10, NOT_AB_FILE), Step(bitboard << 6, NOT_HG_FILE)]
  }

  /** King steps: the straight steps north and south only need to stay on the board. */
  function KingSteps(bitboard: U64): seq<Step>
  {
    [Step(bitboard >> 8, ALL_SQUARES), Step(bitboard >> 9, NOT_H_FILE),
     Step(bitboard >> 7, NOT_A_FILE), Step(bitboard >> 1, NOT_H_FILE),
     Step(bitboard << 8, ALL_SQUARES), Step(bitboard << 9, NOT_A_FILE),
     Step(bitboard << 7, NOT_H_FILE), Step(bitboard << 1, NOT_A_FILE)]
  }

  /**
   * The pawn captures as the engine writes them: every side other than
   * White gets the two captures toward rank 8, and White gets the two
   * captures toward rank 1 with the two file masks exchanged.
   */
  function PawnStepsAsWritten(side: Side, bitboard: U64): seq<Step>
  {
    if side != White then
      [Step(bitboard >> 7, NOT_A_FILE), Step(bitboard >> 9, NOT_H_FILE)]
    else
      [Step(bitboard << 7, NOT_A_FILE), Step(bitboard << 9, NOT_H_FILE)]
  }

  /** The pawn captures as the comments describe them: White toward rank 8, Black toward rank 1. */
  function PawnSteps(side: Side, bitboard: U64): seq<Step>
  {
    if side == White then
      [Step(bitboard >> 7, NOT_A_FILE), Step(bitboard >> 9, NOT_H_FILE)]
    else
      [Step(bitboard << 7, NOT_H_FILE), Step(bitboard << 9, NOT_A_FILE)]
  }

  /** `maskPawnAttacks` as written. */
  function MaskPawnAttacksAsWritten(side: Side, square: int): U64
  {
    KeepFrom(PawnStepsAsWritten(side, SetBit(0, square)), 0, 0)
  }

  /** `maskPawnAttacks` with the side test and the masks of the `<<` captures corrected. */
  function MaskPawnAttacks(side: Side, square: int): U64
  {
    KeepFrom(PawnSteps(side, SetBit(0, square)), 0, 0)
  }

  /** `maskKnightAttacks`. */
  function MaskKnightAttacks(square: int): U64
  {
    KeepFrom(KnightSteps(SetBit(0, square)), 0, 0)
  }

  /** `maskKingAttacks`. */
  function MaskKingAttacks(square: int): U64
  {
    KeepFrom(KingSteps(SetBit(0, square)), 0, 0)
  }

  // ---------------------------------------------------------------
  // Board geometry
  // ---------------------------------------------------------------

  function Rank(sq: int): int { sq / 8 }

  function File(sq: int): int { sq % 8 }

  function Dist(a: int, b: int): nat
  {
    if a < b then b - a else a - b
  }

  /** A knight move: two ranks and one file apart, or one rank and two files. */
  predicate KnightMove(sq: int, t: int)
  {
    (Dist(Rank(sq), Rank(t)) == 2 && Dist(File(sq), File(t)) == 1)
    || (Dist(Rank(sq), Rank(t)) == 1 && Dist(File(sq), File(t)) == 2)
  }

  /** A king move: a different square at most one rank and one file away. */
  predicate KingMove(sq: int, t: int)
  {
    t != sq && Dist(Rank(sq), Rank(t)) <= 1 && Dist(File(sq), File(t)) <= 1
  }

  /** A pawn capture: one rank forward (toward rank 8 for White, rank 1 otherwise) and one file aside. */
  predicate PawnCapture(side: Side, sq: int, t: int)
  {
    Rank(t) == Rank(sq) + (if side == White then -1 else 1) && Dist(File(sq), File(t)) == 1
  }

  // ---------------------------------------------------------------
  // Shifting a single bit
  // ---------------------------------------------------------------

  /** The bit of `target`, or the empty board when `target` is off the board. */
  function BitOrEmpty(target: int): U64
  {
    if 0 <= target < 64 then SquareBit(target) else 0
  }

  // `SquareBit(sq) >> d` and `SquareBit(sq) << d` for each leaper amount `d`:
  // the square `d` lower or higher, or the empty board once it leaves the board.

  lemma Offset1(sq: int)
    requires 0 <= sq < 64
    ensures 1 <= sq <==> 1 <= Shift(sq)
    ensures 1 <= sq ==> Shift(sq - 1) == Shift(sq) - 1
    ensures sq < 63 <==> Shift(sq) < 63
    ensures sq < 63 ==> Shift(sq + 1) == Shift(sq) + 1
  {
    ShiftRoundTrip(sq);
    ShiftRoundTrip(1);
    if 1 <= sq {
      ShiftAdd(sq - 1, 1);
    }
    if sq < 63 {
      ShiftAdd(sq, 1);
    }
  }

  lemma RawRight1(k: bv7)
    requires k < 64
    ensures BitAt(k) >> 1 == if 1 <= k then BitAt(k - 1) else 0
  {
  }

  lemma Right1(sq: int)
    requires 0 <= sq < 64
    ensures SquareBit(sq) >> 1 == BitOrEmpty(sq - 1)
  {
    ShiftBound(sq);
    Offset1(sq);
    RawRight1(Shift(sq));
  }

  lemma RawLeft1(k: bv7)
    requires k < 64
    ensures BitAt(k) << 1 == if k < 63 then BitAt(k + 1) else 0
  {
  }

  lemma Left1(sq: int)
    requires 0 <= sq < 64
    ensures SquareBit(sq) << 1 == BitOrEmpty(sq + 1)
  {
    ShiftBound(sq);
    Offset1(sq);
    RawLeft1(Shift(sq));
  }

  lemma Offset6(sq: int)
    requires 0 <= sq < 64
    ensures 6 <= sq <==> 6 <= Shift(sq)
    ensures 6 <= sq ==> Shift(sq - 6) == Shift(sq) - 6
    ensures sq < 58 <==> Shift(sq) < 58
    ensures sq < 58 ==> Shift(sq + 6) == Shift(sq) + 6
  {
    ShiftRoundTrip(sq);
    ShiftRoundTrip(6);
    if 6 <= sq {
      ShiftAdd(sq - 6, 6);
    }
    if sq < 58 {
      ShiftAdd(sq, 6);
    }
  }

  lemma RawRight6(k: bv7)
    requires k < 64
    ensures BitAt(k) >> 6 == if 6 <= k then BitAt(k - 6) else 0
  {
  }

  lemma Right6(sq: int)
    requires 0 <= sq < 64
    ensures SquareBit(sq) >> 6 == BitOrEmpty(sq - 6)
  {
    ShiftBound(sq);
    Offset6(sq);
    RawRight6(Shift(sq));
  }

  lemma RawLeft6(k: bv7)
    requires k < 64
    ensures BitAt(k) << 6 == if k < 58 then BitAt(k + 6) else 0
  {
  }

  lemma Left6(sq: int)
    requires 0 <= sq < 64
    ensures SquareBit(sq) << 6 == BitOrEmpty(sq + 6)
  {
    ShiftBound(sq);
    Offset6(sq);
    RawLeft6(Shift(sq));
  }

  lemma Offset7(sq: int)
    requires 0 <= sq < 64
    ensures 7 <= sq <==> 7 <= Shift(sq)
    ensures 7 <= sq ==> Shift(sq - 7) == Shift(sq) - 7
    ensures sq < 57 <==> Shift(sq) < 57
    ensures sq < 57 ==> Shift(sq + 7) == Shift(sq) + 7
  {
    ShiftRoundTrip(sq);
    ShiftRoundTrip(7);
    if 7 <= sq {
      ShiftAdd(sq - 7, 7);
    }
    if sq < 57 {
      ShiftAdd(sq, 7);
    }
  }

  lemma RawRight7(k: bv7)
    requires k < 64
    ensures BitAt(k) >> 7 == if 7 <= k then BitAt(k - 7) else 0
  {
  }

  lemma Right7(sq: int)
    requires 0 <= sq < 64
    ensures SquareBit(sq) >> 7 == BitOrEmpty(sq - 7)
  {
    ShiftBound(sq);
    Offset7(sq);
    RawRight7(Shift(sq));
  }

  lemma RawLeft7(k: bv7)
    requires k < 64
    ensures BitAt(k) << 7 == if k < 57 then BitAt(k + 7) else 0
  {
  }

  lemma Left7(sq: int)
    requires 0 <= sq < 64
    ensures SquareBit(sq) << 7 == BitOrEmpty(sq + 7)
  {
    ShiftBound(sq);
    Offset7(sq);
    RawLeft7(Shift(sq));
  }

  lemma Offset8(sq: int)
    requires 0 <= sq < 64
    ensures 8 <= sq <==> 8 <= Shift(sq)
    ensures 8 <= sq ==> Shift(sq - 8) == Shift(sq) - 8
    ensures sq < 56 <==> Shift(sq) < 56
    ensures sq < 56 ==> Shift(sq + 8) == Shift(sq) + 8
  {
    ShiftRoundTrip(sq);
    ShiftRoundTrip(8);
    if 8 <= sq {
      ShiftAdd(sq - 8, 8);
    }
    if sq < 56 {
      ShiftAdd(sq, 8);
    }
  }

  lemma RawRight8(k: bv7)
    requires k < 64
    ensures BitAt(k) >> 8 == if 8 <= k then BitAt(k - 8) else 0
  {
  }

  lemma Right8(sq: int)
    requires 0 <= sq < 64
    ensures SquareBit(sq) >> 8 == BitOrEmpty(sq - 8)
  {
    ShiftBound(sq);
    Offset8(sq);
    RawRight8(Shift(sq));
  }

  lemma RawLeft8(k: bv7)
    requires k < 64
    ensures BitAt(k) << 8 == if k < 56 then BitAt(k + 8) else 0
  {
  }

  lemma Left8(sq: int)
    requires 0 <= sq < 64
    ensures SquareBit(sq) << 8 == BitOrEmpty(sq + 8)
  {
    ShiftBound(sq);
    Offset8(sq);
    RawLeft8(Shift(sq));
  }

  lemma Offset9(sq: int)
    requires 0 <= sq < 64
    ensures 9 <= sq <==> 9 <= Shift(sq)
    ensures 9 <= sq ==> Shift(sq - 9) == Shift(sq) - 9
    ensures sq < 55 <==> Shift(sq) < 55
    ensures sq < 55 ==> Shift(sq + 9) == Shift(sq) + 9
  {
    ShiftRoundTrip(sq);
    ShiftRoundTrip(9);
    if 9 <= sq {
      ShiftAdd(sq - 9, 9);
    }
    if sq < 55 {
      ShiftAdd(sq, 9);
    }
  }

  lemma RawRight9(k: bv7)
    requires k < 64
    ensures BitAt(k) >> 9 == if 9 <= k then BitAt(k - 9) else 0
  {
  }

  lemma Right9(sq: int)
    requires 0 <= sq < 64
    ensures SquareBit(sq) >> 9 == BitOrEmpty(sq - 9)
  {
    ShiftBound(sq);
    Offset9(sq);
    RawRight9(Shift(sq));
  }

  lemma RawLeft9(k: bv7)
    requires k < 64
    ensures BitAt(k) << 9 == if k < 55 then BitAt(k + 9) else 0
  {
  }

  lemma Left9(sq: int)
    requires 0 <= sq < 64
    ensures SquareBit(sq) << 9 == BitOrEmpty(sq + 9)
  {
    ShiftBound(sq);
    Offset9(sq);
    RawLeft9(Shift(sq));
  }

  lemma Offset10(sq: int)
    requires 0 <= sq < 64
    ensures 10 <= sq <==> 10 <= Shift(sq)
    ensures 10 <= sq ==> Shift(sq - 10) == Shift(sq) - 10
    ensures sq < 54 <==> Shift(sq) < 54
    ensures sq < 54 ==> Shift(sq + 10) == Shift(sq) + 10
  {
    ShiftRoundTrip(sq);
    ShiftRoundTrip(10);
    if 10 <= sq {
      ShiftAdd(sq - 10, 10);
    }
    if sq < 54 {
      ShiftAdd(sq, 10);
    }
  }

  lemma RawRight10(k: bv7)
    requires k < 64
    ensures BitAt(k) >> 10 == if 10 <= k then BitAt(k - 10) else 0
  {
  }

  lemma Right10(sq: int)
    requires 0 <= sq < 64
    ensures SquareBit(sq) >> 10 == BitOrEmpty(sq - 10)
  {
    ShiftBound(sq);
    Offset10(sq);
    RawRight10(Shift(sq));
  }

  lemma RawLeft10(k: bv7)
    requires k < 64
    ensures BitAt(k) << 10 == if k < 54 then BitAt(k + 10) else 0
  {
  }

  lemma Left10(sq: int)
    requires 0 <= sq < 64
    ensures SquareBit(sq) << 10 == BitOrEmpty(sq + 10)
  {
    ShiftBound(sq);
    Offset10(sq);
    RawLeft10(Shift(sq));
  }

  lemma Offset15(sq: int)
    requires 0 <= sq < 64
    ensures 15 <= sq <==> 15 <= Shift(sq)
    ensures 15 <= sq ==> Shift(sq - 15) == Shift(sq) - 15
    ensures sq < 49 <==> Shift(sq) < 49
    ensures sq < 49 ==> Shift(sq + 15) == Shift(sq) + 15
  {
    ShiftRoundTrip(sq);
    ShiftRoundTrip(15);
    if 15 <= sq {
      ShiftAdd(sq - 15, 15);
    }
    if sq < 49 {
      ShiftAdd(sq, 15);
    }
  }

  lemma RawRight15(k: bv7)
    requires k < 64
    ensures BitAt(k) >> 15 == if 15 <= k then BitAt(k - 15) else 0
  {
  }

  lemma Right15(sq: int)
    requires 0 <= sq < 64
    ensures SquareBit(sq) >> 15 == BitOrEmpty(sq - 15)
  {
    ShiftBound(sq);
    Offset15(sq);
    RawRight15(Shift(sq));
  }

  lemma RawLeft15(k: bv7)
    requires k < 64
    ensures BitAt(k) << 15 == if k < 49 then BitAt(k + 15) else 0
  {
  }

  lemma Left15(sq: int)
    requires 0 <= sq < 64
    ensures SquareBit(sq) << 15 == BitOrEmpty(sq + 15)
  {
    ShiftBound(sq);
    Offset15(sq);
    RawLeft15(Shift(sq));
  }

  lemma Offset17(sq: int)
    requires 0 <= sq < 64
    ensures 17 <= sq <==> 17 <= Shift(sq)
    ensures 17 <= sq ==> Shift(sq - 17) == Shift(sq) - 17
    ensures sq < 47 <==> Shift(sq) < 47
    ensures sq < 47 ==> Shift(sq + 17) == Shift(sq) + 17
  {
    ShiftRoundTrip(sq);
    ShiftRoundTrip(17);
    if 17 <= sq {
      ShiftAdd(sq - 17, 17);
    }
    if sq < 47 {
      ShiftAdd(sq, 17);
    }
  }

  lemma RawRight17(k: bv7)
    requires k < 64
    ensures BitAt(k) >> 17 == if 17 <= k then BitAt(k - 17) else 0
  {
  }

  lemma Right17(sq: int)
    requires 0 <= sq < 64
    ensures SquareBit(sq) >> 17 == BitOrEmpty(sq - 17)
  {
    ShiftBound(sq);
    Offset17(sq);
    RawRight17(Shift(sq));
  }

  lemma RawLeft17(k: bv7)
    requires k < 64
    ensures BitAt(k) << 17 == if k < 47 then BitAt(k + 17) else 0
  {
  }

  lemma Left17(sq: int)
    requires 0 <= sq < 64
    ensures SquareBit(sq) << 17 == BitOrEmpty(sq + 17)
  {
    ShiftBound(sq);
    Offset17(sq);
    RawLeft17(Shift(sq));
  }

  lemma RawSingle(s: bv7, k: bv7)
    requires s < 64 && k < 64
    ensures RawBit(BitAt(s), k) <==> s == k
  {
  }

  lemma RawStepFires(s: bv7, mask: U64)
    requires s < 64
    ensures Fires(Step(BitAt(s), mask)) <==> RawBit(mask, s)
  {
  }

  lemma RawMaskTest(s: bv7, mask: U64)
    requires s < 64
    ensures BitAt(s) & mask != 0 <==> RawBit(mask, s)
  {
  }

  /** The one-bit board of `sq` has exactly the square `sq` set. */
  lemma SingleBit(sq: int, t: int)
    requires 0 <= sq < 64 && 0 <= t < 64
    ensures IsSet(SquareBit(sq), t) <==> sq == t
  {
    ShiftBound(sq);
    ShiftBound(t);
    RawSingle(Shift(sq), Shift(t));
    if sq != t {
      BitsDistinct(sq, t);
    }
  }

  /** A step on the bit of `target` sets `t` iff `t` is that target and lies in the mask. */
  lemma StepSquare(target: int, mask: U64, t: int)
    requires 0 <= target < 64 && 0 <= t < 64
    ensures Fires(Step(SquareBit(target), mask)) && IsSet(SquareBit(target), t) <==> t == target && IsSet(mask, t)
  {
    ShiftBound(target);
    RawStepFires(Shift(target), mask);
    SingleBit(target, t);
  }

  /** `SquareBit(target) & mask` is not zero iff `target` lies in the mask. */
  lemma MaskTest(target: int, mask: U64)
    requires 0 <= target < 64
    ensures SquareBit(target) & mask != 0 <==> IsSet(mask, target)
  {
    ShiftBound(target);
    RawMaskTest(Shift(target), mask);
  }

  /** A square on the first board stays on the accumulated board. */
  lemma {:induction false} KeepFromKeeps(steps: seq<Step>, i: nat, attacks: U64, t: int)
    requires i <= |steps| && 0 <= t < 64
    ensures IsSet(attacks, t) ==> IsSet(KeepFrom(steps, i, attacks), t)
    decreases |steps| - i
  {
    if i < |steps| {
      if Fires(steps[i]) {
        OrBits(attacks, steps[i].shifted, t);
      }
      KeepFromKeeps(steps, i + 1, Keep(attacks, steps[i]), t);
    }
  }

  /** A square that a firing step sets is on the accumulated board. */
  lemma {:induction false} KeepFromEach(steps: seq<Step>, i: nat, attacks: U64, t: int)
    requires i <= |steps| && 0 <= t < 64
    ensures SomeStepSets(steps, i, t) ==> IsSet(KeepFrom(steps, i, attacks), t)
    decreases |steps| - i
  {
    if i < |steps| {
      if Fires(steps[i]) && IsSet(steps[i].shifted, t) {
        OrBits(attacks, steps[i].shifted, t);
        KeepFromKeeps(steps, i + 1, Keep(attacks, steps[i]), t);
      } else {
        KeepFromEach(steps, i + 1, Keep(attacks, steps[i]), t);
      }
    }
  }

  /** Every square of the accumulated board comes from the first board or from a firing step. */
  lemma {:induction false} KeepFromSome(steps: seq<Step>, i: nat, attacks: U64, t: int)
    requires i <= |steps| && 0 <= t < 64
    ensures IsSet(KeepFrom(steps, i, attacks), t) ==> IsSet(attacks, t) || SomeStepSets(steps, i, t)
    decreases |steps| - i
  {
    if i < |steps| {
      KeepFromSome(steps, i + 1, Keep(attacks, steps[i]), t);
      OrBits(attacks, steps[i].shifted, t);
    }
  }

  /** The squares of a leaper mask are exactly those its firing steps set. */
  lemma LeaperBits(steps: seq<Step>, t: int)
    requires 0 <= t < 64
    ensures IsSet(KeepFrom(steps, 0, 0), t) <==> SomeStepSets(steps, 0, t)
  {
    ZeroBits(t);
    KeepFromSome(steps, 0, 0, t);
    KeepFromEach(steps, 0, 0, t);
  }

  lemma RawFileMasks(k: bv7)
    requires k < 64
    ensures RawBit(NOT_A_FILE, k) <==> k & 7 != 0
    ensures RawBit(NOT_H_FILE, k) <==> k & 7 != 7
    ensures RawBit(NOT_AB_FILE, k) <==> k & 7 >= 2
    ensures RawBit(NOT_HG_FILE, k) <==> k & 7 <= 5
    ensures RawBit(ALL_SQUARES, k)
  {
  }

  /** The four file masks: everything but the a file, the h file, the a and b files, the g and h files. */
  lemma FileMasks(t: int)
    requires 0 <= t < 64
    ensures IsSet(NOT_A_FILE, t) <==> File(t) != 0
    ensures IsSet(NOT_H_FILE, t) <==> File(t) != 7
    ensures IsSet(NOT_AB_FILE, t) <==> File(t) >= 2
    ensures IsSet(NOT_HG_FILE, t) <==> File(t) <= 5
    ensures IsSet(ALL_SQUARES, t)
  {
    ShiftBound(t);
    RawFileMasks(Shift(t));
    FileOfShift(t);
  }

  /** The low three bits of a square's shift amount compare like its file. */
  lemma FileOfShift(t: int)
    requires 0 <= t < 64
    ensures Shift(t) & 7 != 0 <==> File(t) != 0
    ensures Shift(t) & 7 != 7 <==> File(t) != 7
    ensures Shift(t) & 7 >= 2 <==> File(t) >= 2
    ensures Shift(t) & 7 <= 5 <==> File(t) <= 5
  {
    ShiftFileRank(t);
    ShiftRoundTrip(t % 8);
  }

  /** A step whose shifted value is the bit of `target`, or nothing when `target` is off the board. */
  lemma StepSets(st: Step, target: int, t: int)
    requires 0 <= t < 64
    requires st.shifted == BitOrEmpty(target)
    ensures Fires(st) && IsSet(st.shifted, t) <==> t == target && IsSet(st.mask, t)
  {
    if 0 <= target < 64 {
      StepSetsIn(st, target, t);
    } else {
      NothingFires(st);
    }
  }

  lemma StepSetsIn(st: Step, target: int, t: int)
    requires 0 <= t < 64 && 0 <= target < 64
    requires st.shifted == SquareBit(target)
    ensures Fires(st) && IsSet(st.shifted, t) <==> t == target && IsSet(st.mask, t)
  {
    assert st == Step(SquareBit(target), st.mask);
    StepSquare(target, st.mask, t);
  }

  lemma NothingFires(st: Step)
    requires st.shifted == 0
    ensures !Fires(st)
  {
  }

  /** Step `i` sets `t` exactly when `t` is its target and in its mask; otherwise the later steps decide. */
  lemma StepTarget(steps: seq<Step>, i: nat, target: int, t: int)
    requires i < |steps| && 0 <= t < 64
    requires steps[i].shifted == BitOrEmpty(target)
    ensures SomeStepSets(steps, i, t) <==> (t == target && IsSet(steps[i].mask, t)) || SomeStepSets(steps, i + 1, t)
  {
    StepSets(steps[i], target, t);
  }
  /** Two consecutive steps, each with its target. */
  lemma TwoStepTargets(steps: seq<Step>, i: nat, a: int, b: int, t: int)
    requires i + 1 < |steps| && 0 <= t < 64
    requires steps[i].shifted == BitOrEmpty(a) && steps[i + 1].shifted == BitOrEmpty(b)
    ensures SomeStepSets(steps, i, t) <==>
      (t == a && IsSet(steps[i].mask, t)) || (t == b && IsSet(steps[i + 1].mask, t)) || SomeStepSets(steps, i + 2, t)
  {
    StepTarget(steps, i, a, t);
    StepTarget(steps, i + 1, b, t);
  }


  // Each leaper step moves the piece bit by its offset, or off the board.

  lemma KnightShifted01(sq: int)
    requires 0 <= sq < 64
    ensures var steps := KnightSteps(SquareBit(sq));
      steps[0].shifted == BitOrEmpty(sq - 17) && steps[1].shifted == BitOrEmpty(sq - 15)
  {
    Right17(sq); Right15(sq);
  }

  lemma KnightShifted23(sq: int)
    requires 0 <= sq < 64
    ensures var steps := KnightSteps(SquareBit(sq));
      steps[2].shifted == BitOrEmpty(sq - 10) && steps[3].shifted == BitOrEmpty(sq - 6)
  {
    Right10(sq); Right6(sq);
  }

  lemma KnightShiftedDown(sq: int)
    requires 0 <= sq < 64
    ensures var steps := KnightSteps(SquareBit(sq));
      steps[4].shifted == BitOrEmpty(sq + 17) && steps[5].shifted == BitOrEmpty(sq + 15)
      && steps[6].shifted == BitOrEmpty(sq + 10) && steps[7].shifted == BitOrEmpty(sq + 6)
  {
    Left17(sq); Left15(sq); Left10(sq); Left6(sq);
  }

  /** The first two knight jumps toward rank 8: 17 and 15 squares lower. */
  lemma KnightTargets01(sq: int, t: int)
    requires 0 <= sq < 64 && 0 <= t < 64
    ensures var steps := KnightSteps(SquareBit(sq));
      SomeStepSets(steps, 0, t) <==>
        (t == sq - 17 && IsSet(NOT_H_FILE, t)) || (t == sq - 15 && IsSet(NOT_A_FILE, t))
        || SomeStepSets(steps, 2, t)
  {
    var steps := KnightSteps(SquareBit(sq));
    KnightShifted01(sq);
    TwoStepTargets(steps, 0, sq - 17, sq - 15, t);
  }

  /** The other two knight jumps toward rank 8: 10 and 6 squares lower. */
  lemma KnightTargets23(sq: int, t: int)
    requires 0 <= sq < 64 && 0 <= t < 64
    ensures var steps := KnightSteps(SquareBit(sq));
      SomeStepSets(steps, 2, t) <==>
        (t == sq - 10 && IsSet(NOT_HG_FILE, t)) || (t == sq - 6 && IsSet(NOT_AB_FILE, t))
        || SomeStepSets(steps, 4, t)
  {
    var steps := KnightSteps(SquareBit(sq));
    KnightShifted23(sq);
    TwoStepTargets(steps, 2, sq - 10, sq - 6, t);
  }

  /** The knight's jumps toward rank 1 set their targets that the jump's file mask lets through. */
  lemma KnightDownTargets(sq: int, t: int)
    requires 0 <= sq < 64 && 0 <= t < 64
    ensures var steps := KnightSteps(SquareBit(sq));
      SomeStepSets(steps, 4, t) <==>
        (t == sq + 17 && IsSet(NOT_A_FILE, t)) || (t == sq + 15 && IsSet(NOT_H_FILE, t))
        || (t == sq + 10 && IsSet(NOT_AB_FILE, t)) || (t == sq + 6 && IsSet(NOT_HG_FILE, t))
  {
    var steps := KnightSteps(SquareBit(sq));
    KnightShiftedDown(sq);
    TwoStepTargets(steps, 4, sq + 17, sq + 15, t);
    TwoStepTargets(steps, 6, sq + 10, sq + 6, t);
    assert !SomeStepSets(steps, 8, t);
  }

  /** The piece board the masks start from: the bit of the square alone. */
  lemma PieceBoard(sq: int)
    requires 0 <= sq < 64
    ensures SetBit(0, sq) == SquareBit(sq)
  {
  }

  /** A knight mask holds the jump targets that the jumps' file masks let through. */
  lemma KnightMaskTargets(sq: int, t: int)
    requires 0 <= sq < 64 && 0 <= t < 64
    ensures IsSet(MaskKnightAttacks(sq), t) <==>
        (t == sq - 17 && IsSet(NOT_H_FILE, t)) || (t == sq - 15 && IsSet(NOT_A_FILE, t))
        || (t == sq - 10 && IsSet(NOT_HG_FILE, t)) || (t == sq - 6 && IsSet(NOT_AB_FILE, t))
        || (t == sq + 17 && IsSet(NOT_A_FILE, t)) || (t == sq + 15 && IsSet(NOT_H_FILE, t))
        || (t == sq + 10 && IsSet(NOT_AB_FILE, t)) || (t == sq + 6 && IsSet(NOT_HG_FILE, t))
  {
    PieceBoard(sq);
    LeaperBits(KnightSteps(SquareBit(sq)), t);
    KnightTargets01(sq, t);
    KnightTargets23(sq, t);
    KnightDownTargets(sq, t);
  }

  /** The eight knight offsets with their file conditions are exactly the knight moves on the board. */
  lemma KnightGeometry(sq: int, t: int)
    requires 0 <= sq < 64 && 0 <= t < 64
    ensures KnightMove(sq, t) <==>
        (t == sq - 17 && File(t) != 7) || (t == sq - 15 && File(t) != 0)
        || (t == sq - 10 && File(t) <= 5) || (t == sq - 6 && File(t) >= 2)
        || (t == sq + 17 && File(t) != 0) || (t == sq + 15 && File(t) != 7)
        || (t == sq + 10 && File(t) >= 2) || (t == sq + 6 && File(t) <= 5)
  {
    assert sq == 8 * Rank(sq) + File(sq) && t == 8 * Rank(t) + File(t);
  }

  /** `maskKnightAttacks(square)` is the set of squares a knight on `square` attacks: no jump wraps around a board edge. */
  lemma MaskKnightBits(sq: int, t: int)
    requires 0 <= sq < 64 && 0 <= t < 64
    ensures IsSet(MaskKnightAttacks(sq), t) <==> KnightMove(sq, t)
  {
    KnightMaskTargets(sq, t);
    FileMasks(t);
    KnightGeometry(sq, t);
  }

  // ---------------------------------------------------------------
  // King mask
  // ---------------------------------------------------------------

  /** Each king step moves the piece bit by its offset, or off the board. */
  lemma KingShifted01(sq: int)
    requires 0 <= sq < 64
    ensures var steps := KingSteps(SquareBit(sq));
      steps[0].shifted == BitOrEmpty(sq - 8) && steps[1].shifted == BitOrEmpty(sq - 9)
  {
    Right8(sq); Right9(sq);
  }

  lemma KingShifted23(sq: int)
    requires 0 <= sq < 64
    ensures var steps := KingSteps(SquareBit(sq));
      steps[2].shifted == BitOrEmpty(sq - 7) && steps[3].shifted == BitOrEmpty(sq - 1)
  {
    Right7(sq); Right1(sq);
  }

  lemma KingShiftedDown(sq: int)
    requires 0 <= sq < 64
    ensures var steps := KingSteps(SquareBit(sq));
      steps[4].shifted == BitOrEmpty(sq + 8) && steps[5].shifted == BitOrEmpty(sq + 9)
      && steps[6].shifted == BitOrEmpty(sq + 7) && steps[7].shifted == BitOrEmpty(sq + 1)
  {
    Left8(sq); Left9(sq); Left7(sq); Left1(sq);
  }

  /** The first two king steps toward rank 8: straight, and toward the a-file. */
  lemma KingTargets01(sq: int, t: int)
    requires 0 <= sq < 64 && 0 <= t < 64
    ensures var steps := KingSteps(SquareBit(sq));
      SomeStepSets(steps, 0, t) <==>
        (t == sq - 8 && IsSet(ALL_SQUARES, t)) || (t == sq - 9 && IsSet(NOT_H_FILE, t))
        || SomeStepSets(steps, 2, t)
  {
    var steps := KingSteps(SquareBit(sq));
    KingShifted01(sq);
    TwoStepTargets(steps, 0, sq - 8, sq - 9, t);
  }

  /** The next two king steps: toward rank 8 and the h-file, and one file toward the a-file. */
  lemma KingTargets23(sq: int, t: int)
    requires 0 <= sq < 64 && 0 <= t < 64
    ensures var steps := KingSteps(SquareBit(sq));
      SomeStepSets(steps, 2, t) <==>
        (t == sq - 7 && IsSet(NOT_A_FILE, t)) || (t == sq - 1 && IsSet(NOT_H_FILE, t))
        || SomeStepSets(steps, 4, t)
  {
    var steps := KingSteps(SquareBit(sq));
    KingShifted23(sq);
    TwoStepTargets(steps, 2, sq - 7, sq - 1, t);
  }

  /** The king steps toward rank 1 and toward the h-file. */
  lemma KingDownTargets(sq: int, t: int)
    requires 0 <= sq < 64 && 0 <= t < 64
    ensures var steps := KingSteps(SquareBit(sq));
      SomeStepSets(steps, 4, t) <==>
        (t == sq + 8 && IsSet(ALL_SQUARES, t)) || (t == sq + 9 && IsSet(NOT_A_FILE, t))
        || (t == sq + 7 && IsSet(NOT_H_FILE, t)) || (t == sq + 1 && IsSet(NOT_A_FILE, t))
  {
    var steps := KingSteps(SquareBit(sq));
    KingShiftedDown(sq);
    TwoStepTargets(steps, 4, sq + 8, sq + 9, t);
    TwoStepTargets(steps, 6, sq + 7, sq + 1, t);
    assert !SomeStepSets(steps, 8, t);
  }

  /** A king mask holds the step targets that the steps' file masks let through. */
  lemma KingMaskTargets(sq: int, t: int)
    requires 0 <= sq < 64 && 0 <= t < 64
    ensures IsSet(MaskKingAttacks(sq), t) <==>
        (t == sq - 8 && IsSet(ALL_SQUARES, t)) || (t == sq - 9 && IsSet(NOT_H_FILE, t))
        || (t == sq - 7 && IsSet(NOT_A_FILE, t)) || (t == sq - 1 && IsSet(NOT_H_FILE, t))
        || (t == sq + 8 && IsSet(ALL_SQUARES, t)) || (t == sq + 9 && IsSet(NOT_A_FILE, t))
        || (t == sq + 7 && IsSet(NOT_H_FILE, t)) || (t == sq + 1 && IsSet(NOT_A_FILE, t))
  {
    PieceBoard(sq);
    LeaperBits(KingSteps(SquareBit(sq)), t);
    KingTargets01(sq, t);
    KingTargets23(sq, t);
    KingDownTargets(sq, t);
  }

  /** The eight king offsets with their file conditions are exactly the king moves on the board. */
  lemma KingGeometry(sq: int, t: int)
    requires 0 <= sq < 64 && 0 <= t < 64
    ensures KingMove(sq, t) <==>
        t == sq - 8 || (t == sq - 9 && File(t) != 7) || (t == sq - 7 && File(t) != 0)
        || (t == sq - 1 && File(t) != 7) || t == sq + 8 || (t == sq + 9 && File(t) != 0)
        || (t == sq + 7 && File(t) != 7) || (t == sq + 1 && File(t) != 0)
  {
    assert sq == 8 * Rank(sq) + File(sq) && t == 8 * Rank(t) + File(t);
  }

  /** `maskKingAttacks(square)` is the set of the eight neighbours of `square` on the board. */
  lemma MaskKingBits(sq: int, t: int)
    requires 0 <= sq < 64 && 0 <= t < 64
    ensures IsSet(MaskKingAttacks(sq), t) <==> KingMove(sq, t)
  {
    KingMaskTargets(sq, t);
    FileMasks(t);
    KingGeometry(sq, t);
  }

  // ---------------------------------------------------------------
  // Pawn mask
  // ---------------------------------------------------------------

  /** The two capture steps move the piece bit by 7 and 9, toward rank 8 for White and toward rank 1 otherwise. */
  lemma PawnShifted(side: Side, sq: int)
    requires 0 <= sq < 64
    ensures var steps := PawnSteps(side, SquareBit(sq));
      side == White ==> steps[0].shifted == BitOrEmpty(sq - 7) && steps[1].shifted == BitOrEmpty(sq - 9)
    ensures var steps := PawnSteps(side, SquareBit(sq));
      side != White ==> steps[0].shifted == BitOrEmpty(sq + 7) && steps[1].shifted == BitOrEmpty(sq + 9)
  {
    Right7(sq); Right9(sq); Left7(sq); Left9(sq);
  }

  lemma PawnTargets(side: Side, sq: int, t: int)
    requires 0 <= sq < 64 && 0 <= t < 64
    ensures side == White ==> (IsSet(MaskPawnAttacks(side, sq), t) <==>
        (t == sq - 7 && IsSet(NOT_A_FILE, t)) || (t == sq - 9 && IsSet(NOT_H_FILE, t)))
    ensures side != White ==> (IsSet(MaskPawnAttacks(side, sq), t) <==>
        (t == sq + 7 && IsSet(NOT_H_FILE, t)) || (t == sq + 9 && IsSet(NOT_A_FILE, t)))
  {
    var steps := PawnSteps(side, SquareBit(sq));
    PieceBoard(sq);
    LeaperBits(steps, t);
    PawnShifted(side, sq);
    if side == White {
      TwoStepTargets(steps, 0, sq - 7, sq - 9, t);
    } else {
      TwoStepTargets(steps, 0, sq + 7, sq + 9, t);
    }
    assert !SomeStepSets(steps, 2, t);
  }

  lemma PawnGeometry(side: Side, sq: int, t: int)
    requires 0 <= sq < 64 && 0 <= t < 64
    ensures side == White ==> (PawnCapture(side, sq, t) <==>
        (t == sq - 7 && File(t) != 0) || (t == sq - 9 && File(t) != 7))
    ensures side != White ==> (PawnCapture(side, sq, t) <==>
        (t == sq + 7 && File(t) != 7) || (t == sq + 9 && File(t) != 0))
  {
    assert sq == 8 * Rank(sq) + File(sq) && t == 8 * Rank(t) + File(t);
  }

  /** The corrected pawn mask holds exactly the two diagonal squares one rank ahead of the pawn. */
  lemma MaskPawnBits(side: Side, sq: int, t: int)
    requires 0 <= sq < 64 && 0 <= t < 64
    ensures IsSet(MaskPawnAttacks(side, sq), t) <==> PawnCapture(side, sq, t)
  {
    PawnTargets(side, sq, t);
    FileMasks(t);
    PawnGeometry(side, sq, t);
  }

  // The mask as written

  /** For every side but White the written mask is White's corrected mask: the side test is inverted. */
  lemma PawnAsWrittenInverted(side: Side, sq: int)
    requires side != White
    ensures MaskPawnAttacksAsWritten(side, sq) == MaskPawnAttacks(White, sq)
  {
    assert PawnStepsAsWritten(side, SetBit(0, sq)) == PawnSteps(White, SetBit(0, sq));
  }

  /** White's written mask: the squares 7 and 9 higher (toward rank 1), with the file masks of the other side. */
  lemma PawnAsWrittenWhiteTargets(sq: int, t: int)
    requires 0 <= sq < 64 && 0 <= t < 64
    ensures IsSet(MaskPawnAttacksAsWritten(White, sq), t) <==>
        (t == sq + 7 && IsSet(NOT_A_FILE, t)) || (t == sq + 9 && IsSet(NOT_H_FILE, t))
  {
    var steps := PawnStepsAsWritten(White, SquareBit(sq));
    PieceBoard(sq);
    LeaperBits(steps, t);
    Left7(sq);
    Left9(sq);
    TwoStepTargets(steps, 0, sq + 7, sq + 9, t);
    assert !SomeStepSets(steps, 2, t);
  }

  lemma PawnAsWrittenWhiteBits(sq: int, t: int)
    requires 0 <= sq < 64 && 0 <= t < 64
    ensures IsSet(MaskPawnAttacksAsWritten(White, sq), t) <==>
        (t == sq + 7 && File(t) != 0) || (t == sq + 9 && File(t) != 7)
  {
    PawnAsWrittenWhiteTargets(sq, t);
    FileMasks(t);
  }

  /** As written, no square in White's mask is a square a White pawn captures on: they all lie on its rank or behind it. */
  lemma PawnAsWrittenWhiteWrong(sq: int, t: int)
    requires 0 <= sq < 64 && 0 <= t < 64
    ensures IsSet(MaskPawnAttacksAsWritten(White, sq), t) ==> Rank(t) >= Rank(sq) && !PawnCapture(White, sq, t)
  {
    PawnAsWrittenWhiteBits(sq, t);
  }

  /** As written, no square in Black's mask is a square a Black pawn captures on: they lie toward rank 8. */
  lemma PawnAsWrittenBlackWrong(sq: int, t: int)
    requires 0 <= sq < 64 && 0 <= t < 64
    ensures IsSet(MaskPawnAttacksAsWritten(Black, sq), t) ==> Rank(t) < Rank(sq) && !PawnCapture(Black, sq, t)
  {
    PawnAsWrittenInverted(Black, sq);
    MaskPawnBits(White, sq, t);
  }

  /** A White pawn on the a-file is given the h-file square of its own rank (a2, 48, gets h2, 55). */
  lemma PawnAsWrittenWraps(sq: int)
    requires 0 <= sq < 56 && File(sq) == 0
    ensures IsSet(MaskPawnAttacksAsWritten(White, sq), sq + 7)
    ensures Rank(sq + 7) == Rank(sq) && File(sq + 7) == 7
  {
    PawnAsWrittenWhiteBits(sq, sq + 7);
  }

}
