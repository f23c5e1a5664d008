// The 16-bit packed move of the user interface: bits 0-5 hold the source
// square, bits 6-11 the target square and bits 12-15 the move flag.

module MoveEncoding {

  // Move flags, four bits wide. Bit 2 marks a capture, bit 3 a promotion and
  // the low two bits of a promotion select the piece.
  const QUIET: bv16 := 0
  const DOUBLE_PAWN_PUSH: bv16 := 1
  const KING_CASTLE: bv16 := 2
  const QUEEN_CASTLE: bv16 := 3
  const CAPTURE: bv16 := 4
  const EN_PASSANT: bv16 := 5
  const KNIGHT_PROMOTION: bv16 := 8
  const BISHOP_PROMOTION: bv16 := 9
  const ROOK_PROMOTION: bv16 := 10
  const QUEEN_PROMOTION: bv16 := 11
  const KNIGHT_PROMO_CAPTURE: bv16 := 12
  const BISHOP_PROMO_CAPTURE: bv16 := 13
  const ROOK_PROMO_CAPTURE: bv16 := 14
  const QUEEN_PROMO_CAPTURE: bv16 := 15

  /** The fourteen named flag values. */
  predicate IsNamedFlag(f: bv16)
  {
    f <= 5 || 8 <= f <= 15
  }

  datatype Move = Move(data: bv16)

  /**
   * The constructor from squares and a flag. The source ORs the three fields
   * as integers and truncates to 16 bits, which is the same as doing the OR
   * and the shifts on 16-bit words.
   */
  function Pack(from: bv16, to: bv16, flags: bv16): Move
  {
    Move(from | (to << 6) | (flags << 12))
  }

  const None: Move := Move(0)

  function From(m: Move): (s: bv16)
    ensures s < 64
  {
    m.data & 0x3F
  }

  function To(m: Move): (s: bv16)
    ensures s < 64
  {
    (m.data >> 6) & 0x3F
  }

  function Flags(m: Move): (f: bv16)
    ensures f < 16
  {
    (m.data >> 12) & 0x0F
  }

  function Raw(m: Move): bv16
  {
    m.data
  }

  predicate IsQuiet(m: Move) { Flags(m) == QUIET }
  predicate IsCapture(m: Move) { (m.data >> 12) & 0x4 != 0 }
  predicate IsPromotion(m: Move) { (m.data >> 12) & 0x8 != 0 }
  predicate IsCastle(m: Move) { Flags(m) == KING_CASTLE || Flags(m) == QUEEN_CASTLE }
  predicate IsEnPassant(m: Move) { Flags(m) == EN_PASSANT }
  predicate IsDoublePush(m: Move) { Flags(m) == DOUBLE_PAWN_PUSH }
  predicate IsValid(m: Move) { m.data != 0 }

  /** Offset of the promotion piece: Knight 0, Bishop 1, Rook 2, Queen 3. */
  function PromotionPieceOffset(m: Move): (o: bv16)
    ensures o < 4
  {
    Flags(m) & 0x3
  }

  /** Unpacking a packed move gives back its three fields. */
  lemma PackRoundTrip(from: bv16, to: bv16, flags: bv16)
    requires from < 64 && to < 64 && flags < 16
    ensures From(Pack(from, to, flags)) == from
    ensures To(Pack(from, to, flags)) == to
    ensures Flags(Pack(from, to, flags)) == flags
  {
  }

  /** Every 16-bit word is the packing of its own fields, so packing is a bijection. */
  lemma UnpackRoundTrip(m: Move)
    ensures Pack(From(m), To(m), Flags(m)) == m
  {
  }

  /** The capture and promotion tests read bits 2 and 3 of the flag. */
  lemma FlagBits(from: bv16, to: bv16, flags: bv16)
    requires from < 64 && to < 64 && flags < 16
    ensures IsCapture(Pack(from, to, flags)) <==> flags & 4 != 0
    ensures IsPromotion(Pack(from, to, flags)) <==> flags & 8 != 0
    ensures IsCastle(Pack(from, to, flags)) <==> (flags == KING_CASTLE || flags == QUEEN_CASTLE)
    ensures IsQuiet(Pack(from, to, flags)) <==> flags == QUIET
  {
    PackRoundTrip(from, to, flags);
  }

  /** Among the named flags, exactly these are captures: Capture, EnPassant and the four promo-captures. */
  lemma CaptureFlags(from: bv16, to: bv16, flags: bv16)
    requires from < 64 && to < 64 && IsNamedFlag(flags)
    ensures IsCapture(Pack(from, to, flags)) <==>
      flags in {CAPTURE, EN_PASSANT, KNIGHT_PROMO_CAPTURE, BISHOP_PROMO_CAPTURE, ROOK_PROMO_CAPTURE, QUEEN_PROMO_CAPTURE}
    ensures IsPromotion(Pack(from, to, flags)) <==> flags >= 8
  {
    FlagBits(from, to, flags);
  }

  /** The promotion offset of each promotion flag, quiet or capturing. */
  lemma PromotionOffsets(from: bv16, to: bv16)
    requires from < 64 && to < 64
    ensures PromotionPieceOffset(Pack(from, to, KNIGHT_PROMOTION)) == 0
    ensures PromotionPieceOffset(Pack(from, to, BISHOP_PROMOTION)) == 1
    ensures PromotionPieceOffset(Pack(from, to, ROOK_PROMOTION)) == 2
    ensures PromotionPieceOffset(Pack(from, to, QUEEN_PROMOTION)) == 3
    ensures PromotionPieceOffset(Pack(from, to, KNIGHT_PROMO_CAPTURE)) == 0
    ensures PromotionPieceOffset(Pack(from, to, BISHOP_PROMO_CAPTURE)) == 1
    ensures PromotionPieceOffset(Pack(from, to, ROOK_PROMO_CAPTURE)) == 2
    ensures PromotionPieceOffset(Pack(from, to, QUEEN_PROMO_CAPTURE)) == 3
  {
    PackRoundTrip(from, to, KNIGHT_PROMOTION);
    PackRoundTrip(from, to, BISHOP_PROMOTION);
    PackRoundTrip(from, to, ROOK_PROMOTION);
    PackRoundTrip(from, to, QUEEN_PROMOTION);
    PackRoundTrip(from, to, KNIGHT_PROMO_CAPTURE);
    PackRoundTrip(from, to, BISHOP_PROMO_CAPTURE);
    PackRoundTrip(from, to, ROOK_PROMO_CAPTURE);
    PackRoundTrip(from, to, QUEEN_PROMO_CAPTURE);
  }

  /** A packed move is valid unless all three fields are zero; None is the invalid move. */
  lemma ValidIffNonZero(from: bv16, to: bv16, flags: bv16)
    requires from < 64 && to < 64 && flags < 16
    ensures IsValid(Pack(from, to, flags)) <==> (from != 0 || to != 0 || flags != 0)
    ensures !IsValid(None) && Raw(None) == 0
  {
    PackRoundTrip(from, to, flags);
  }
}
