// The bitboard engine's basic types: 64-bit boards, the square numbering
// (a8 = 0 ... h1 = 63, then None), the twelve piece indices with their
// letters, the side index and the four castling bit flags.

module BitboardTypes {

  type U64 = bv64

  const NOT_A_FILE: U64 := 18374403900871474942
  const NOT_H_FILE: U64 := 9187201950435737471
  const NOT_AB_FILE: U64 := 18229723555195321596
  const NOT_HG_FILE: U64 := 4557430888798830399

  // ---------------------------------------------------------------
  // Bits of a board
  // ---------------------------------------------------------------
  // The bit-manipulation helpers (setBit, getBit, popBit, lsb, countBits)
  // are not part of this model; they are taken to be the usual ones: bit
  // `sq` of a board is the square `sq`.

  /**
   * A square number as a shift amount, built from its binary digits: the
   * recursive definition keeps the integer-to-bit-vector conversion out of
   * the bit proofs, which use the lemmas below instead.
   */
  function Shift(sq: int): bv7
    requires 0 <= sq <= 64
    decreases sq
  {
    if sq == 0 then 0 else 2 * Shift(sq / 2) + (if sq % 2 == 1 then 1 else 0)
  }

  lemma {:induction false} ShiftRoundTrip(sq: int)
    requires 0 <= sq <= 64
    ensures Shift(sq) as int == sq
    decreases sq
  {
    if sq > 0 {
      ShiftRoundTrip(sq / 2);
    }
  }

  lemma ShiftBound(sq: int)
    requires 0 <= sq <= 64
    ensures Shift(sq) <= 64
    ensures sq < 64 ==> Shift(sq) < 64
    ensures sq == 64 ==> Shift(sq) == 64
  {
    ShiftRoundTrip(sq);
  }

  /** Shift amounts add like the numbers they stand for. */
  lemma {:induction false} ShiftSucc(x: int)
    requires 0 <= x < 64
    ensures Shift(x + 1) == Shift(x) + 1
    decreases x
  {
    if x % 2 == 1 {
      ShiftSucc(x / 2);
      assert (x + 1) / 2 == x / 2 + 1;
    }
  }

  lemma {:induction false} ShiftAdd(x: int, d: int)
    requires 0 <= x && 0 <= d && x + d <= 64
    ensures Shift(x + d) == Shift(x) + Shift(d)
    decreases d
  {
    if d > 0 {
      ShiftAdd(x, d - 1);
      ShiftSucc(x + d - 1);
      ShiftSucc(d - 1);
      assert x + d == (x + d - 1) + 1;
    }
  }

  /** Shift amounts compare like the numbers they stand for. */
  lemma ShiftLess(a: int, b: int)
    requires 0 <= a < b <= 64
    ensures Shift(a) < Shift(b)
  {
    ShiftAdd(a, b - a);
    ShiftBound(a);
    ShiftBound(b);
    ShiftBound(b - a);
    ShiftRoundTrip(b - a);
  }

  lemma ShiftSmall(q: int)
    requires 0 <= q < 8
    ensures Shift(q) < 8
  {
    var b0: bv7 := if q % 2 == 1 then 1 else 0;
    var b1: bv7 := if (q / 2) % 2 == 1 then 1 else 0;
    var b2: bv7 := if (q / 4) % 2 == 1 then 1 else 0;
    assert (q / 2) / 2 == q / 4 && (q / 4) / 2 == 0;
    assert Shift(q / 4) == b2;
    assert Shift(q / 2) == 2 * b2 + b1;
    assert Shift(q) == 2 * (2 * b2 + b1) + b0;
  }

  lemma ShiftEight(q: int)
    requires 0 <= q < 8
    ensures Shift(8 * q) == Shift(q) << 3
  {
    assert (8 * q) / 2 == 4 * q && (8 * q) % 2 == 0;
    assert Shift(8 * q) == 2 * Shift(4 * q);
    assert (4 * q) / 2 == 2 * q && (4 * q) % 2 == 0;
    assert Shift(4 * q) == 2 * Shift(2 * q);
    assert (2 * q) / 2 == q && (2 * q) % 2 == 0;
    assert Shift(2 * q) == 2 * Shift(q);
  }

  /** The low three bits of a square are its file, the high three its rank. */
  lemma ShiftFileRank(t: int)
    requires 0 <= t < 64
    ensures Shift(t) & 7 == Shift(t % 8)
    ensures Shift(t) >> 3 == Shift(t / 8)
  {
    ShiftAdd(8 * (t / 8), t % 8);
    ShiftEight(t / 8);
    ShiftBound(t % 8);
    ShiftBound(t / 8);
    ShiftSmall(t % 8);
    ShiftSmall(t / 8);
  }

  /** The one-bit board of square `sq`. */
  function SquareBit(sq: int): U64
    requires 0 <= sq < 64
  {
    ShiftBound(sq);
    BitAt(Shift(sq))
  }

  function BitAt(k: bv7): U64
    requires k < 64
  {
    (1 as U64) << k
  }

  /** `getBit`: is square `sq` set on the board. */
  predicate IsSet(b: U64, sq: int)
    requires 0 <= sq < 64
  {
    ShiftBound(sq);
    RawBit(b, Shift(sq))
  }

  predicate RawBit(b: U64, k: bv7)
    requires k < 64
  {
    (b >> k) & 1 == 1
  }

  /** `setBit`: turns on the bit of `sq`; a square off the board (an undefined shift) is taken to change nothing. */
  function SetBit(b: U64, sq: int): (r: U64)
    ensures !(0 <= sq < 64) ==> r == b
  {
    if 0 <= sq < 64 then b | SquareBit(sq) else b
  }

  /** `popBit`: turns off the bit of `sq`. */
  function PopBit(b: U64, sq: int): U64
    requires 0 <= sq < 64
  {
    ShiftBound(sq);
    b & !BitAt(Shift(sq))
  }

  lemma BitsDistinct(sq: int, k: int)
    requires 0 <= sq < 64 && 0 <= k < 64 && sq != k
    ensures Shift(sq) != Shift(k)
  {
    ShiftRoundTrip(sq);
    ShiftRoundTrip(k);
  }

  lemma RawSetOther(b: U64, s: bv7, k: bv7)
    requires s < 64 && k < 64 && s != k
    ensures RawBit(b | BitAt(s), k) <==> RawBit(b, k)
  {
  }

  lemma RawSetSame(b: U64, s: bv7)
    requires s < 64
    ensures RawBit(b | BitAt(s), s)
  {
  }

  lemma RawPopOther(b: U64, s: bv7, k: bv7)
    requires s < 64 && k < 64 && s != k
    ensures RawBit(b & !BitAt(s), k) <==> RawBit(b, k)
  {
  }

  lemma RawPopSame(b: U64, s: bv7)
    requires s < 64
    ensures !RawBit(b & !BitAt(s), s)
  {
  }

  lemma RawOr(a: U64, b: U64, k: bv7)
    requires k < 64
    ensures RawBit(a | b, k) <==> RawBit(a, k) || RawBit(b, k)
  {
  }

  lemma RawAnd(a: U64, b: U64, k: bv7)
    requires k < 64
    ensures RawBit(a & b, k) <==> RawBit(a, k) && RawBit(b, k)
  {
  }

  lemma RawAndNot(a: U64, b: U64, k: bv7)
    requires k < 64
    ensures RawBit(a & !b, k) <==> RawBit(a, k) && !RawBit(b, k)
  {
  }

  /** Setting a square turns its bit on and leaves every other bit as it was. */
  lemma SetBitBits(b: U64, sq: int, k: int)
    requires 0 <= sq < 64 && 0 <= k < 64
    ensures IsSet(SetBit(b, sq), k) <==> k == sq || IsSet(b, k)
  {
    if k != sq {
      SetBitOther(b, sq, k);
    } else {
      ShiftBound(sq);
      RawSetSame(b, Shift(sq));
    }
  }

  lemma SetBitOther(b: U64, sq: int, k: int)
    requires 0 <= sq < 64 && 0 <= k < 64 && k != sq
    ensures IsSet(SetBit(b, sq), k) <==> IsSet(b, k)
  {
    ShiftBound(sq);
    ShiftBound(k);
    BitsDistinct(sq, k);
    RawSetOther(b, Shift(sq), Shift(k));
  }

  /** Popping a square turns its bit off and leaves every other bit as it was. */
  lemma PopBitBits(b: U64, sq: int, k: int)
    requires 0 <= sq < 64 && 0 <= k < 64
    ensures IsSet(PopBit(b, sq), k) <==> k != sq && IsSet(b, k)
  {
    if k != sq {
      PopBitOther(b, sq, k);
    } else {
      ShiftBound(sq);
      RawPopSame(b, Shift(sq));
    }
  }

  lemma PopBitOther(b: U64, sq: int, k: int)
    requires 0 <= sq < 64 && 0 <= k < 64 && k != sq
    ensures IsSet(PopBit(b, sq), k) <==> IsSet(b, k)
  {
    ShiftBound(sq);
    ShiftBound(k);
    BitsDistinct(sq, k);
    RawPopOther(b, Shift(sq), Shift(k));
  }

  /** The bits of OR, AND and AND-NOT are computed square by square. */
  lemma OrBits(a: U64, b: U64, k: int)
    requires 0 <= k < 64
    ensures IsSet(a | b, k) <==> IsSet(a, k) || IsSet(b, k)
  {
    ShiftBound(k);
    RawOr(a, b, Shift(k));
  }

  /** The OR of `n` boards from `lo` on, taken left to right as the source's `|` chain does. */
  function OrRun(boards: seq<U64>, lo: nat, n: nat): U64
    requires 1 <= n && lo + n <= |boards|
  {
    if n == 1 then boards[lo] else OrRun(boards, lo, n - 1) | boards[lo + n - 1]
  }

  /** A square set in an OR of boards is set in one of them. */
  lemma {:induction false} OrRunSome(boards: seq<U64>, lo: nat, n: nat, sq: int)
    requires 1 <= n && lo + n <= |boards| && 0 <= sq < 64
    ensures IsSet(OrRun(boards, lo, n), sq) ==> exists p :: lo <= p < lo + n && IsSet(boards[p], sq)
  {
    if n > 1 {
      OrRunSome(boards, lo, n - 1, sq);
      OrBits(OrRun(boards, lo, n - 1), boards[lo + n - 1], sq);
    }
  }

  /** A square set in one of the boards is set in their OR. */
  lemma {:induction false} OrRunEach(boards: seq<U64>, lo: nat, n: nat, p: nat, sq: int)
    requires 1 <= n && lo <= p < lo + n <= |boards| && 0 <= sq < 64
    ensures IsSet(boards[p], sq) ==> IsSet(OrRun(boards, lo, n), sq)
  {
    if n > 1 {
      if p < lo + n - 1 {
        OrRunEach(boards, lo, n - 1, p, sq);
      }
      OrBits(OrRun(boards, lo, n - 1), boards[lo + n - 1], sq);
    }
  }

  lemma AndBits(a: U64, b: U64, k: int)
    requires 0 <= k < 64
    ensures IsSet(a & b, k) <==> IsSet(a, k) && IsSet(b, k)
  {
    ShiftBound(k);
    RawAnd(a, b, Shift(k));
  }

  lemma AndNotBits(a: U64, b: U64, k: int)
    requires 0 <= k < 64
    ensures IsSet(a & !b, k) <==> IsSet(a, k) && !IsSet(b, k)
  {
    ShiftBound(k);
    RawAndNot(a, b, Shift(k));
  }

  lemma ZeroBits(k: int)
    requires 0 <= k < 64
    ensures !IsSet(0, k)
  {
    ShiftBound(k);
  }

  /** The set squares from `k` upwards, in increasing order: the order `lsb`/`popBit` loops visit them. */
  function SetSquaresFrom(b: U64, k: nat): (r: seq<int>)
    requires k <= 64
    ensures forall i :: 0 <= i < |r| ==> k <= r[i] < 64
    decreases 64 - k
  {
    if k == 64 then []
    else if IsSet(b, k) then [k] + SetSquaresFrom(b, k + 1)
    else SetSquaresFrom(b, k + 1)
  }

  function SetSquares(b: U64): seq<int>
  {
    SetSquaresFrom(b, 0)
  }

  /** `countBits`: the number of set squares. */
  function CountBits(b: U64): nat
  {
    |SetSquares(b)|
  }

  /** A square is listed exactly when its bit is set. */
  lemma {:induction false} SetSquaresFromMembers(b: U64, k: nat, sq: int)
    requires k <= 64
    ensures sq in SetSquaresFrom(b, k) <==> k <= sq < 64 && IsSet(b, sq)
    decreases 64 - k
  {
    if k < 64 {
      SetSquaresFromMembers(b, k + 1, sq);
    }
  }

  /** The list is strictly increasing. */
  lemma {:induction false} SetSquaresFromSorted(b: U64, k: nat)
    requires k <= 64
    ensures forall i, j :: 0 <= i < j < |SetSquaresFrom(b, k)| ==> SetSquaresFrom(b, k)[i] < SetSquaresFrom(b, k)[j]
    decreases 64 - k
  {
    if k < 64 {
      SetSquaresFromSorted(b, k + 1);
    }
  }

  lemma SetSquaresMembers(b: U64, sq: int)
    ensures sq in SetSquares(b) <==> 0 <= sq < 64 && IsSet(b, sq)
  {
    SetSquaresFromMembers(b, 0, sq);
  }

  /** A board with no square set is the empty board. */
  lemma AllClearIsZero(b: U64)
    requires forall j :: 0 <= j < 64 ==> !IsSet(b, j)
    ensures b == 0
  {
    ClearRank0(b);
    ClearRank1(b);
    ClearRank2(b);
    ClearRank3(b);
    ClearRank4(b);
    ClearRank5(b);
    ClearRank6(b);
    ClearRank7(b);
    RawAllClearIsZero(b);
  }

  lemma ClearRank0(b: U64)
    requires forall j :: 0 <= j < 8 ==> !IsSet(b, j)
    ensures !RawBit(b, 0)
    ensures !RawBit(b, 1)
    ensures !RawBit(b, 2)
    ensures !RawBit(b, 3)
    ensures !RawBit(b, 4)
    ensures !RawBit(b, 5)
    ensures !RawBit(b, 6)
    ensures !RawBit(b, 7)
  {
    assert !IsSet(b, 0);
    assert !IsSet(b, 1);
    assert !IsSet(b, 2);
    assert !IsSet(b, 3);
    assert !IsSet(b, 4);
    assert !IsSet(b, 5);
    assert !IsSet(b, 6);
    assert !IsSet(b, 7);
  }

  lemma ClearRank1(b: U64)
    requires forall j :: 8 <= j < 16 ==> !IsSet(b, j)
    ensures !RawBit(b, 8)
    ensures !RawBit(b, 9)
    ensures !RawBit(b, 10)
    ensures !RawBit(b, 11)
    ensures !RawBit(b, 12)
    ensures !RawBit(b, 13)
    ensures !RawBit(b, 14)
    ensures !RawBit(b, 15)
  {
    assert !IsSet(b, 8);
    assert !IsSet(b, 9);
    assert !IsSet(b, 10);
    assert !IsSet(b, 11);
    assert !IsSet(b, 12);
    assert !IsSet(b, 13);
    assert !IsSet(b, 14);
    assert !IsSet(b, 15);
  }

  lemma ClearRank2(b: U64)
    requires forall j :: 16 <= j < 24 ==> !IsSet(b, j)
    ensures !RawBit(b, 16)
    ensures !RawBit(b, 17)
    ensures !RawBit(b, 18)
    ensures !RawBit(b, 19)
    ensures !RawBit(b, 20)
    ensures !RawBit(b, 21)
    ensures !RawBit(b, 22)
    ensures !RawBit(b, 23)
  {
    assert !IsSet(b, 16);
    assert !IsSet(b, 17);
    assert !IsSet(b, 18);
    assert !IsSet(b, 19);
    assert !IsSet(b, 20);
    assert !IsSet(b, 21);
    assert !IsSet(b, 22);
    assert !IsSet(b, 23);
  }

  lemma ClearRank3(b: U64)
    requires forall j :: 24 <= j < 32 ==> !IsSet(b, j)
    ensures !RawBit(b, 24)
    ensures !RawBit(b, 25)
    ensures !RawBit(b, 26)
    ensures !RawBit(b, 27)
    ensures !RawBit(b, 28)
    ensures !RawBit(b, 29)
    ensures !RawBit(b, 30)
    ensures !RawBit(b, 31)
  {
    assert !IsSet(b, 24);
    assert !IsSet(b, 25);
    assert !IsSet(b, 26);
    assert !IsSet(b, 27);
    assert !IsSet(b, 28);
    assert !IsSet(b, 29);
    assert !IsSet(b, 30);
    assert !IsSet(b, 31);
  }

  lemma ClearRank4(b: U64)
    requires forall j :: 32 <= j < 40 ==> !IsSet(b, j)
    ensures !RawBit(b, 32)
    ensures !RawBit(b, 33)
    ensures !RawBit(b, 34)
    ensures !RawBit(b, 35)
    ensures !RawBit(b, 36)
    ensures !RawBit(b, 37)
    ensures !RawBit(b, 38)
    ensures !RawBit(b, 39)
  {
    assert !IsSet(b, 32);
    assert !IsSet(b, 33);
    assert !IsSet(b, 34);
    assert !IsSet(b, 35);
    assert !IsSet(b, 36);
    assert !IsSet(b, 37);
    assert !IsSet(b, 38);
    assert !IsSet(b, 39);
  }

  lemma ClearRank5(b: U64)
    requires forall j :: 40 <= j < 48 ==> !IsSet(b, j)
    ensures !RawBit(b, 40)
    ensures !RawBit(b, 41)
    ensures !RawBit(b, 42)
    ensures !RawBit(b, 43)
    ensures !RawBit(b, 44)
    ensures !RawBit(b, 45)
    ensures !RawBit(b, 46)
    ensures !RawBit(b, 47)
  {
    assert !IsSet(b, 40);
    assert !IsSet(b, 41);
    assert !IsSet(b, 42);
    assert !IsSet(b, 43);
    assert !IsSet(b, 44);
    assert !IsSet(b, 45);
    assert !IsSet(b, 46);
    assert !IsSet(b, 47);
  }

  lemma ClearRank6(b: U64)
    requires forall j :: 48 <= j < 56 ==> !IsSet(b, j)
    ensures !RawBit(b, 48)
    ensures !RawBit(b, 49)
    ensures !RawBit(b, 50)
    ensures !RawBit(b, 51)
    ensures !RawBit(b, 52)
    ensures !RawBit(b, 53)
    ensures !RawBit(b, 54)
    ensures !RawBit(b, 55)
  {
    assert !IsSet(b, 48);
    assert !IsSet(b, 49);
    assert !IsSet(b, 50);
    assert !IsSet(b, 51);
    assert !IsSet(b, 52);
    assert !IsSet(b, 53);
    assert !IsSet(b, 54);
    assert !IsSet(b, 55);
  }

  lemma ClearRank7(b: U64)
    requires forall j :: 56 <= j < 64 ==> !IsSet(b, j)
    ensures !RawBit(b, 56)
    ensures !RawBit(b, 57)
    ensures !RawBit(b, 58)
    ensures !RawBit(b, 59)
    ensures !RawBit(b, 60)
    ensures !RawBit(b, 61)
    ensures !RawBit(b, 62)
    ensures !RawBit(b, 63)
  {
    assert !IsSet(b, 56);
    assert !IsSet(b, 57);
    assert !IsSet(b, 58);
    assert !IsSet(b, 59);
    assert !IsSet(b, 60);
    assert !IsSet(b, 61);
    assert !IsSet(b, 62);
    assert !IsSet(b, 63);
  }

  lemma RawAllClearIsZero(b: U64)
    requires !RawBit(b, 0)
    requires !RawBit(b, 1)
    requires !RawBit(b, 2)
    requires !RawBit(b, 3)
    requires !RawBit(b, 4)
    requires !RawBit(b, 5)
    requires !RawBit(b, 6)
    requires !RawBit(b, 7)
    requires !RawBit(b, 8)
    requires !RawBit(b, 9)
    requires !RawBit(b, 10)
    requires !RawBit(b, 11)
    requires !RawBit(b, 12)
    requires !RawBit(b, 13)
    requires !RawBit(b, 14)
    requires !RawBit(b, 15)
    requires !RawBit(b, 16)
    requires !RawBit(b, 17)
    requires !RawBit(b, 18)
    requires !RawBit(b, 19)
    requires !RawBit(b, 20)
    requires !RawBit(b, 21)
    requires !RawBit(b, 22)
    requires !RawBit(b, 23)
    requires !RawBit(b, 24)
    requires !RawBit(b, 25)
    requires !RawBit(b, 26)
    requires !RawBit(b, 27)
    requires !RawBit(b, 28)
    requires !RawBit(b, 29)
    requires !RawBit(b, 30)
    requires !RawBit(b, 31)
    requires !RawBit(b, 32)
    requires !RawBit(b, 33)
    requires !RawBit(b, 34)
    requires !RawBit(b, 35)
    requires !RawBit(b, 36)
    requires !RawBit(b, 37)
    requires !RawBit(b, 38)
    requires !RawBit(b, 39)
    requires !RawBit(b, 40)
    requires !RawBit(b, 41)
    requires !RawBit(b, 42)
    requires !RawBit(b, 43)
    requires !RawBit(b, 44)
    requires !RawBit(b, 45)
    requires !RawBit(b, 46)
    requires !RawBit(b, 47)
    requires !RawBit(b, 48)
    requires !RawBit(b, 49)
    requires !RawBit(b, 50)
    requires !RawBit(b, 51)
    requires !RawBit(b, 52)
    requires !RawBit(b, 53)
    requires !RawBit(b, 54)
    requires !RawBit(b, 55)
    requires !RawBit(b, 56)
    requires !RawBit(b, 57)
    requires !RawBit(b, 58)
    requires !RawBit(b, 59)
    requires !RawBit(b, 60)
    requires !RawBit(b, 61)
    requires !RawBit(b, 62)
    requires !RawBit(b, 63)
    ensures b == 0
  {
  }

  /** A board is empty exactly when it lists no squares: the loop `while (b)` stops when the list is used up. */
  lemma ZeroIffNoSquares(b: U64)
    ensures b == 0 <==> SetSquares(b) == []
  {
    if SetSquares(b) == [] {
      forall j | 0 <= j < 64
        ensures !IsSet(b, j)
      {
        SetSquaresMembers(b, j);
      }
      AllClearIsZero(b);
    } else {
      var sq := SetSquares(b)[0];
      SetSquaresMembers(b, sq);
      if b == 0 {
        ZeroBits(sq);
      }
    }
  }

  /** `lsb`: the lowest set square of a non-empty board. */
  function Lsb(b: U64): (sq: int)
    requires b != 0
    ensures 0 <= sq < 64 && IsSet(b, sq)
  {
    ZeroIffNoSquares(b);
    SetSquaresMembers(b, SetSquares(b)[0]);
    SetSquares(b)[0]
  }

  /** Bits below `k` do not affect the list from `k` on. */
  lemma {:induction false} PopBelowKeepsFrom(b: U64, sq: int, k: nat)
    requires 0 <= sq < k <= 64
    ensures SetSquaresFrom(PopBit(b, sq), k) == SetSquaresFrom(b, k)
    decreases 64 - k
  {
    if k < 64 {
      PopBitBits(b, sq, k);
      PopBelowKeepsFrom(b, sq, k + 1);
    }
  }

  /** Popping the lowest set square from `k` on drops the head of the list. */
  lemma {:induction false} PopFirstFrom(b: U64, k: nat)
    requires k <= 64 && SetSquaresFrom(b, k) != []
    ensures SetSquaresFrom(PopBit(b, SetSquaresFrom(b, k)[0]), k) == SetSquaresFrom(b, k)[1..]
    decreases 64 - k
  {
    var sq := SetSquaresFrom(b, k)[0];
    if IsSet(b, k) {
      PopBitBits(b, sq, k);
      PopBelowKeepsFrom(b, sq, k + 1);
    } else {
      PopFirstFrom(b, k + 1);
      PopBitBits(b, sq, k);
    }
  }

  /** One step of a `lsb`/`popBit` loop: the board that is left lists the remaining squares. */
  lemma PopLsb(b: U64)
    requires b != 0
    ensures |SetSquares(b)| > 0 && SetSquares(PopBit(b, Lsb(b))) == SetSquares(b)[1..]
  {
    ZeroIffNoSquares(b);
    PopFirstFrom(b, 0);
  }

  /** A run of clear squares adds nothing to the list. */
  lemma {:induction false} ClearRunCount(b: U64, k: nat, hi: nat)
    requires k <= hi <= 64
    requires forall j :: k <= j < hi ==> !IsSet(b, j)
    ensures SetSquaresFrom(b, k) == SetSquaresFrom(b, hi)
    decreases hi - k
  {
    if k < hi {
      ClearRunCount(b, k + 1, hi);
    }
  }

  /** A run of set squares adds its length to the count. */
  lemma {:induction false} SetRunCount(b: U64, k: nat, hi: nat)
    requires k <= hi <= 64
    requires forall j :: k <= j < hi ==> IsSet(b, j)
    ensures |SetSquaresFrom(b, k)| == (hi - k) + |SetSquaresFrom(b, hi)|
    decreases hi - k
  {
    if k < hi {
      SetRunCount(b, k + 1, hi);
    }
  }

  // ---------------------------------------------------------------
  // Squares
  // ---------------------------------------------------------------

  /** A square is its enum value: a8..h8 are 0..7, ..., a1..h1 are 56..63, None is 64. */
  type Square = s: int | 0 <= s <= 64

  const SQUARE_NONE: Square := 64

  /** `to_index`: the enum value itself. */
  function ToIndex(s: Square): (i: int)
    ensures 0 <= i <= 64
    ensures s != SQUARE_NONE ==> i < 64
  {
    s
  }

  /** The square on `file` (0 = a) and `rankFromTop` (0 = rank 8): the enum's row-major order. */
  function SquareAt(file: int, rankFromTop: int): (s: Square)
    requires 0 <= file < 8 && 0 <= rankFromTop < 8
  {
    rankFromTop * 8 + file
  }

  /** A square's coordinate name: the file letter a-h, then the rank digit 8 down to 1. */
  function SquareName(s: int): (name: string)
    requires 0 <= s < 64
    ensures |name| == 2 && 'a' <= name[0] <= 'h' && '1' <= name[1] <= '8'
  {
    [('a' as int + s % 8) as char, ('8' as int - s / 8) as char]
  }

  /** The square a coordinate string names, as the FEN parser computes it: (8 - rank) * 8 + file. */
  function IndexOfName(name: string): int
    requires |name| == 2
  {
    (8 - (name[1] as int - '0' as int)) * 8 + (name[0] as int - 'a' as int)
  }

  // ---------------------------------------------------------------
  // Pieces
  // ---------------------------------------------------------------

  /** The piece indices, None = -1, then WKing..WRook = 0..5 and BKing..BRook = 6..11. */
  const NO_PIECE: int := -1
  const W_KING: int := 0
  const W_QUEEN: int := 1
  const W_PAWN: int := 2
  const W_KNIGHT: int := 3
  const W_BISHOP: int := 4
  const W_ROOK: int := 5
  const B_KING: int := 6
  const B_QUEEN: int := 7
  const B_PAWN: int := 8
  const B_KNIGHT: int := 9
  const B_BISHOP: int := 10
  const B_ROOK: int := 11

  /** `asciiPieces`: the letter of each piece index, white in capitals; the terminating NUL is included. */
  const ASCII_PIECES: string := "KQPNBRkqpnbr\0"

  /** `GetPieceTypeFromChar`: the index of a piece letter; any other character gives 0, the white king. */
  function PieceTypeFromChar(c: char): (p: int)
    ensures 0 <= p < 12
  {
    match c
    case 'K' => W_KING
    case 'Q' => W_QUEEN
    case 'P' => W_PAWN
    case 'N' => W_KNIGHT
    case 'B' => W_BISHOP
    case 'R' => W_ROOK
    case 'k' => B_KING
    case 'q' => B_QUEEN
    case 'p' => B_PAWN
    case 'n' => B_KNIGHT
    case 'b' => B_BISHOP
    case 'r' => B_ROOK
    case _ => 0
  }

  // ---------------------------------------------------------------
  // Side
  // ---------------------------------------------------------------

  datatype Side = NoSide | White | Black | Both

  /** `to_index(Side)`: None -1, White 0, Black 1, Both 2. */
  function SideIndex(s: Side): (i: int)
    ensures -1 <= i <= 2
    ensures s != NoSide ==> 0 <= i
  {
    match s
    case NoSide => -1
    case White => 0
    case Black => 1
    case Both => 2
  }

  // ---------------------------------------------------------------
  // Castling
  // ---------------------------------------------------------------

  /** Castling rights as the enum's underlying uint8. */
  type Castling = bv8

  const CASTLE_NONE: Castling := 0
  const CASTLE_WK: Castling := 1
  const CASTLE_WQ: Castling := 2
  const CASTLE_BK: Castling := 4
  const CASTLE_BQ: Castling := 8

  function CastlingOr(a: Castling, b: Castling): Castling
  {
    a | b
  }

  function CastlingAnd(a: Castling, b: Castling): Castling
  {
    a & b
  }

  /** `has`: some bit of `flag` is set in `value`. */
  predicate Has(value: Castling, flag: Castling)
  {
    CastlingAnd(value, flag) != 0
  }

  predicate IsCastlingFlag(f: Castling)
  {
    f == CASTLE_WK || f == CASTLE_WQ || f == CASTLE_BK || f == CASTLE_BQ
  }

  // ---------------------------------------------------------------
  // Properties
  // ---------------------------------------------------------------

  /** Reading a square's name back with the FEN parser's formula gives the square. */
  lemma NameRoundTrip(s: int)
    requires 0 <= s < 64
    ensures IndexOfName(SquareName(s)) == s
  {
  }

  /** Enum order is row-major from a8: the square on a file and a rank from the top is named by them. */
  lemma SquareAtName(file: int, rankFromTop: int)
    requires 0 <= file < 8 && 0 <= rankFromTop < 8
    ensures SquareAt(file, rankFromTop) < 64
    ensures SquareName(SquareAt(file, rankFromTop)) == [('a' as int + file) as char, ('8' as int - rankFromTop) as char]
  {
    var s := SquareAt(file, rankFromTop);
    assert s % 8 == file && s / 8 == rankFromTop;
  }

  /** Each of the twelve letters maps to the index whose table letter it is, and back. */
  lemma PieceLetterRoundTrip(p: int)
    requires 0 <= p < 12
    ensures PieceTypeFromChar(ASCII_PIECES[p]) == p
  {
  }

  /** For a piece letter, the table holds it at its index; every other character maps to 0. */
  lemma PieceCharTable(c: char)
    ensures c in ASCII_PIECES[..12] ==> ASCII_PIECES[PieceTypeFromChar(c)] == c
    ensures c !in ASCII_PIECES[..12] ==> PieceTypeFromChar(c) == 0
  {
    assert ASCII_PIECES[..12] == "KQPNBRkqpnbr";
  }

  /** The four flags are the four low bits and together make 15. */
  lemma CastlingFlagBits()
    ensures CASTLE_WK == 1 << 0 && CASTLE_WQ == 1 << 1 && CASTLE_BK == 1 << 2 && CASTLE_BQ == 1 << 3
    ensures CastlingOr(CastlingOr(CastlingOr(CASTLE_WK, CASTLE_WQ), CASTLE_BK), CASTLE_BQ) == 15
    ensures !Has(CASTLE_NONE, CASTLE_WK) && !Has(CASTLE_NONE, CASTLE_WQ)
    ensures !Has(CASTLE_NONE, CASTLE_BK) && !Has(CASTLE_NONE, CASTLE_BQ)
  {
  }

  /** A single flag is present in an OR of rights iff it is present in one of them, and `has` reads just its bit. */
  lemma HasOr(a: Castling, b: Castling, f: Castling)
    requires IsCastlingFlag(f)
    ensures Has(CastlingOr(a, b), f) <==> Has(a, f) || Has(b, f)
    ensures Has(CastlingAnd(a, b), f) <==> Has(a, f) && Has(b, f)
    ensures Has(a, f) <==> a & f == f
  {
  }

  /** Distinct flags do not see each other: a flag is present in another flag only when they are equal. */
  lemma FlagsIndependent(f: Castling, g: Castling)
    requires IsCastlingFlag(f) && IsCastlingFlag(g)
    ensures Has(f, g) <==> f == g
  {
  }
}
