// Standard Algebraic Notation for an executed move (section 8.2.3 of the PGN
// standard), in the engine's basic form: no disambiguation, "x" for captures,
// " e.p." after an en-passant capture, "=" and a letter for a promotion,
// "+" or "#" at the end.

module MoveNotation {
  import opened ChessTypes

  /** The engine's `char` arithmetic: the code is kept to its low eight bits. */
  function CharOf(code: int): char
  {
    (code % 256) as char
  }

  function FileChar(p: Position): char
  {
    CharOf('a' as int + p.x)
  }

  function RankChar(p: Position): char
  {
    CharOf('8' as int - p.y)
  }

  /** The square name, file letter then rank digit; on the board it is a name in a1..h8 that reads back as the square. */
  function PositionString(p: Position): (s: string)
    ensures |s| == 2
    ensures IsValidPosition(p) ==> 'a' <= s[0] <= 'h' && '1' <= s[1] <= '8' && ParseSquare(s) == p
  {
    [FileChar(p), RankChar(p)]
  }

  /** The piece letter; a pawn and "no piece" have none, written as the NUL character. */
  function PieceLetter(t: PieceType): (c: char)
    ensures c == '\0' <==> t == Pawn || t == DefaultType
  {
    match t
    case Pawn => '\0'
    case Knight => 'N'
    case Bishop => 'B'
    case Rook => 'R'
    case Queen => 'Q'
    case King => 'K'
    case DefaultType => '\0'
  }

  /**
   * `castlingToSAN`: empty for a move that is no castle; otherwise the castle
   * mark, "O-O-O" only for a queenside castle without the kingside flag, and
   * "+" for a check. A checkmate gets no mark of its own.
   */
  function CastlingToSAN(m: Move): (s: string)
    ensures s == "" <==> !IsCastling(m.mtype)
    ensures s != "" ==> |s| >= 3 && s[..3] == "O-O" && (s[|s| - 1] == '+' <==> Check in m.mtype) && '#' !in s
    ensures CastlingKingside !in m.mtype && CastlingQueenside in m.mtype ==> |s| >= 5 && s[..5] == "O-O-O"
  {
    if CastlingKingside in m.mtype then
      "O-O" + (if Check in m.mtype then "+" else "")
    else if CastlingQueenside in m.mtype then
      "O-O-O" + (if Check in m.mtype then "+" else "")
    else
      ""
  }

  predicate IsCaptureType(t: MoveType)
  {
    Capture in t || EnPassant in t
  }

  function PawnText(m: Move): string
  {
    (if IsCaptureType(m.mtype) then [FileChar(m.startingPosition), 'x'] else [])
    + PositionString(m.endingPosition)
    + (if EnPassant in m.mtype then " e.p." else "")
    + (if PawnPromotion in m.mtype then ['=', PieceLetter(m.promotionType)] else [])
  }

  function PieceText(m: Move): string
  {
    (if PieceLetter(m.movedPiece) != '\0' then [PieceLetter(m.movedPiece)] else [])
    + (if IsCaptureType(m.mtype) then "x" else "")
    + PositionString(m.endingPosition)
  }

  function CheckSuffix(t: MoveType): string
  {
    if Checkmate in t then "#" else if Check in t then "+" else ""
  }

  /**
   * `generateStandardAlgebraicNotation`: a castle is its castle mark; any other
   * move names at least its target square, a pawn move without capture starts
   * with it, and a piece with a letter starts with the letter.
   */
  function GenerateSAN(m: Move): (san: string)
    ensures IsCastling(m.mtype) ==> |san| >= 3 && san[..3] == "O-O"
    ensures |san| >= 2
    ensures !IsCastling(m.mtype) && m.movedPiece == Pawn && !IsCaptureType(m.mtype) ==> san[..2] == PositionString(m.endingPosition)
    ensures !IsCastling(m.mtype) && m.movedPiece != Pawn && PieceLetter(m.movedPiece) != '\0' ==> san[0] == PieceLetter(m.movedPiece)
  {
    if IsCastling(m.mtype) then CastlingToSAN(m)
    else (if m.movedPiece == Pawn then PawnText(m) else PieceText(m)) + CheckSuffix(m.mtype)
  }

  /** Reads a square name back; the inverse of PositionString on the board. */
  function ParseSquare(s: string): (p: Position)
    requires |s| == 2
  {
    Position(s[0] as int - 'a' as int, '8' as int - s[1] as int)
  }

  // ---------------------------------------------------------------
  // Properties
  // ---------------------------------------------------------------

  /** On the board, a square name is a letter a-h and a digit 1-8, and it reads back to the square. */
  lemma PositionStringRoundTrip(p: Position)
    requires IsValidPosition(p)
    ensures 'a' <= PositionString(p)[0] <= 'h' && '1' <= PositionString(p)[1] <= '8'
    ensures ParseSquare(PositionString(p)) == p
  {
  }

  /** Distinct squares get distinct names. */
  lemma PositionStringInjective(p: Position, q: Position)
    requires IsValidPosition(p) && IsValidPosition(q) && PositionString(p) == PositionString(q)
    ensures p == q
  {
    PositionStringRoundTrip(p);
    PositionStringRoundTrip(q);
  }

  /** Castling is "O-O" (kingside wins when both flags are set) or "O-O-O", with "+" exactly when Check is set. */
  lemma CastlingText(m: Move)
    requires IsCastling(m.mtype)
    ensures CastlingKingside in m.mtype ==> GenerateSAN(m) == (if Check in m.mtype then "O-O+" else "O-O")
    ensures CastlingKingside !in m.mtype ==> GenerateSAN(m) == (if Check in m.mtype then "O-O-O+" else "O-O-O")
    ensures '#' !in GenerateSAN(m)
  {
  }

  /** A pawn capture, including en passant, starts with the source file and "x", then the target square. */
  lemma PawnCaptureText(m: Move)
    requires !IsCastling(m.mtype) && m.movedPiece == Pawn && IsCaptureType(m.mtype)
    ensures |GenerateSAN(m)| >= 4
    ensures GenerateSAN(m)[0] == FileChar(m.startingPosition) && GenerateSAN(m)[1] == 'x'
    ensures GenerateSAN(m)[2..4] == PositionString(m.endingPosition)
  {
    var body := PawnText(m);
    assert GenerateSAN(m) == body + CheckSuffix(m.mtype);
    assert body[..4] == [FileChar(m.startingPosition), 'x'] + PositionString(m.endingPosition);
  }

  /** An en-passant pawn move is followed by " e.p." right after its target square. */
  lemma EnPassantText(m: Move)
    requires !IsCastling(m.mtype) && m.movedPiece == Pawn && EnPassant in m.mtype
    ensures |GenerateSAN(m)| >= 9 && GenerateSAN(m)[4..9] == " e.p."
  {
    var body := PawnText(m);
    assert GenerateSAN(m) == body + CheckSuffix(m.mtype);
    assert body[..9] == [FileChar(m.startingPosition), 'x'] + PositionString(m.endingPosition) + " e.p.";
  }

  /** A quiet promotion is the target square, "=" and the promotion letter, then the check suffix. */
  lemma PromotionText(m: Move)
    requires !IsCastling(m.mtype) && m.movedPiece == Pawn && !IsCaptureType(m.mtype) && PawnPromotion in m.mtype
    ensures GenerateSAN(m) == PositionString(m.endingPosition) + ['=', PieceLetter(m.promotionType)] + CheckSuffix(m.mtype)
  {
  }

  /** Checkmate ends the text with "#" and then no "+" is written; Check alone ends it with "+". */
  lemma CheckSuffixText(m: Move)
    requires !IsCastling(m.mtype)
    requires IsValidPosition(m.startingPosition) && IsValidPosition(m.endingPosition)
    ensures Checkmate in m.mtype ==> GenerateSAN(m)[|GenerateSAN(m)| - 1] == '#' && '+' !in GenerateSAN(m)
    ensures Checkmate !in m.mtype && Check in m.mtype ==> GenerateSAN(m)[|GenerateSAN(m)| - 1] == '+'
    ensures Checkmate !in m.mtype && Check !in m.mtype ==> '+' !in GenerateSAN(m) && '#' !in GenerateSAN(m)
  {
    var body := if m.movedPiece == Pawn then PawnText(m) else PieceText(m);
    assert GenerateSAN(m) == body + CheckSuffix(m.mtype);
    assert '+' !in body && '#' !in body by {
      if m.movedPiece == Pawn {
        NoMarksInPawnText(m);
      } else {
        NoMarksInPieceText(m);
      }
    }
  }

  lemma NoMarksInPawnText(m: Move)
    requires IsValidPosition(m.startingPosition) && IsValidPosition(m.endingPosition)
    ensures '+' !in PawnText(m) && '#' !in PawnText(m)
  {
    var a := if IsCaptureType(m.mtype) then [FileChar(m.startingPosition), 'x'] else [];
    var b := PositionString(m.endingPosition);
    var c := if EnPassant in m.mtype then " e.p." else "";
    var d := if PawnPromotion in m.mtype then ['=', PieceLetter(m.promotionType)] else [];
    assert PawnText(m) == a + b + c + d;
    NoMarksInChars(m.startingPosition);
    NoMarksInChars(m.endingPosition);
  }

  lemma NoMarksInPieceText(m: Move)
    requires IsValidPosition(m.endingPosition)
    ensures '+' !in PieceText(m) && '#' !in PieceText(m)
  {
    NoMarksInChars(m.endingPosition);
  }

  /** File and rank characters of a square on the board are never '+' or '#'. */
  lemma NoMarksInChars(p: Position)
    ensures IsValidPosition(p) ==> FileChar(p) !in "+#" && RankChar(p) !in "+#"
  {
  }

  /** A non-pawn piece with no letter (DefaultType) gives just the target square, plus the markers. */
  lemma DefaultPieceText(m: Move)
    requires !IsCastling(m.mtype) && m.movedPiece == DefaultType
    ensures GenerateSAN(m) == (if IsCaptureType(m.mtype) then "x" else "") + PositionString(m.endingPosition) + CheckSuffix(m.mtype)
  {
  }

  /** A quiet piece move is the piece letter followed by the target square. */
  lemma PieceMoveText(m: Move)
    requires !IsCastling(m.mtype) && m.movedPiece in {Knight, Bishop, Rook, Queen, King}
    requires !IsCaptureType(m.mtype) && Check !in m.mtype && Checkmate !in m.mtype
    ensures GenerateSAN(m) == [PieceLetter(m.movedPiece)] + PositionString(m.endingPosition)
  {
  }
}
