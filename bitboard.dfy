// The bitboard board: twelve piece bitboards, three occupancy boards, the
// side to move, the en-passant square and the castling rights, filled in
// from a position in Forsyth-Edwards Notation (section 16.1 of the PGN
// standard).

module Bitboard {
  import opened BitboardTypes

  /** The value a board holds: 12 piece boards, 3 occupancies (White, Black, Both) and the state fields. */
  datatype BoardState = BoardState(
    pieces: seq<U64>, occupancies: seq<U64>, side: Side, enPassant: int, castle: Castling)

  const NoBoards: seq<U64> := [0, 0, 0, 0, 0, 0, 0, 0, 0, 0, 0, 0]
  const NoOccupancies: seq<U64> := [0, 0, 0]

  /** What `clear` leaves: no bits anywhere, no side, no en-passant square, no castling rights. */
  const ClearedState: BoardState := BoardState(NoBoards, NoOccupancies, NoSide, SQUARE_NONE, CASTLE_NONE)

  /** The start position's placement field, written rank by rank. */
  const START_PLACEMENT: string := "rnbqkbnr/" + "pppppppp/" + "8/8/8/8/" + "PPPPPPPP/" + "RNBQKBNR"

  /** The engine's start position "rnbqkbnr/pppppppp/8/8/8/8/PPPPPPPP/RNBQKBNR w KQkq - 0 1 ", trailing space included. */
  const START_FEN: string := START_PLACEMENT + " w KQkq - 0 1 "

  // ---------------------------------------------------------------
  // The parser's fields, one function per loop of `parseFEN`
  // ---------------------------------------------------------------

  /**
   * The character at `i` of the text; past the end it is the NUL that ends
   * the string the view is taken from.
   */
  function CharAt(fen: string, i: int): char
  {
    if 0 <= i < |fen| then fen[i] else '\0'
  }

  predicate IsFenLetter(c: char)
  {
    ('a' <= c <= 'z') || ('A' <= c <= 'Z')
  }

  predicate IsFenDigit(c: char)
  {
    '1' <= c <= '8'
  }

  /** The index of the first character at or after `i` that is not a space. */
  function NextNonSpace(fen: string, i: nat): (j: nat)
    requires i <= |fen|
    ensures i <= j <= |fen|
    ensures forall k :: i <= k < j ==> fen[k] == ' '
    ensures j < |fen| ==> fen[j] != ' '
    decreases |fen| - i
  {
    if i < |fen| && fen[i] == ' ' then NextNonSpace(fen, i + 1) else i
  }

  /** The piece boards after the placement field, and the index where the field ends. */
  datatype Placement = Placement(boards: seq<U64>, next: nat)

  /**
   * The placement loop from index `i`, at the given rank (0 = rank 8) and
   * file: '/' moves to the next rank, a digit skips that many files, a letter
   * sets its piece's bit at rank * 8 + file, anything else is passed over.
   */
  function PlaceFrom(fen: string, i: nat, rank: nat, file: nat, boards: seq<U64>): (r: Placement)
    requires i <= |fen| && |boards| == 12
    ensures |r.boards| == 12 && i <= r.next <= |fen|
    ensures forall k :: i <= k < r.next ==> fen[k] != ' '
    ensures r.next < |fen| ==> fen[r.next] == ' '
    decreases |fen| - i
  {
    if i < |fen| && fen[i] != ' ' then
      var c := fen[i];
      if c == '/' then PlaceFrom(fen, i + 1, rank + 1, 0, boards)
      else if IsFenDigit(c) then PlaceFrom(fen, i + 1, rank, file + (c as int - '0' as int), boards)
      else if IsFenLetter(c) then
        var piece := PieceTypeFromChar(c);
        PlaceFrom(fen, i + 1, rank, file + 1, boards[piece := SetBit(boards[piece], rank * 8 + file)])
      else PlaceFrom(fen, i + 1, rank, file, boards)
    else Placement(boards, i)
  }

  /** A piece letter of the placement field and the square the parser computes for it. */
  datatype Cell = Cell(piece: int, square: int)

  /** The letters the placement loop meets from `i` on, each with its square, in text order. */
  function CellsFrom(fen: string, i: nat, rank: nat, file: nat): seq<Cell>
    requires i <= |fen|
    decreases |fen| - i
  {
    if i < |fen| && fen[i] != ' ' then
      var c := fen[i];
      if c == '/' then CellsFrom(fen, i + 1, rank + 1, 0)
      else if IsFenDigit(c) then CellsFrom(fen, i + 1, rank, file + (c as int - '0' as int))
      else if IsFenLetter(c) then [Cell(PieceTypeFromChar(c), rank * 8 + file)] + CellsFrom(fen, i + 1, rank, file + 1)
      else CellsFrom(fen, i + 1, rank, file)
    else []
  }

  /** The rank and file the placement loop has reached when it leaves the field. */
  function CursorFrom(fen: string, i: nat, rank: nat, file: nat): (nat, nat)
    requires i <= |fen|
    decreases |fen| - i
  {
    if i < |fen| && fen[i] != ' ' then
      var c := fen[i];
      if c == '/' then CursorFrom(fen, i + 1, rank + 1, 0)
      else if IsFenDigit(c) then CursorFrom(fen, i + 1, rank, file + (c as int - '0' as int))
      else if IsFenLetter(c) then CursorFrom(fen, i + 1, rank, file + 1)
      else CursorFrom(fen, i + 1, rank, file)
    else (rank, file)
  }

  /** The side-to-move field with the length guard the parser evidently intends: no character, no side. */
  function SideField(fen: string, i: nat): (r: (Side, nat))
    requires i <= |fen|
    ensures r.1 <= |fen|
  {
    if i < |fen| then (if fen[i] == 'w' then White else Black, i + 1) else (NoSide, i)
  }

  /**
   * The side-to-move field as ChessBoard.cpp writes it: the guard `i <= size`
   * also admits `i == size`, so a text that ends after the placement still
   * reads one character past its end (modelled as NUL) and sets Black.
   */
  function SideFieldAsWritten(fen: string, i: nat): (r: (Side, nat))
    requires i <= |fen|
    ensures r.0 != NoSide && r.1 == i + 1
  {
    (if CharAt(fen, i) == 'w' then White else Black, i + 1)
  }

  /** The castling field's rights and the index where the field ends. */
  datatype CastleScan = CastleScan(castle: Castling, next: nat)

  /** The castling loop: K, Q, k and q add their flags, '-' and any other letter add nothing. */
  function CastleFrom(fen: string, i: nat, castle: Castling): (r: CastleScan)
    requires i <= |fen|
    ensures i <= r.next <= |fen|
    ensures r.next < |fen| ==> fen[r.next] == ' '
    decreases |fen| - i
  {
    if i < |fen| && fen[i] != ' ' then CastleFrom(fen, i + 1, CastlingOr(castle, LetterFlag(fen[i])))
    else CastleScan(castle, i)
  }

  /** The flag a castling letter stands for, CASTLE_NONE for every other character. */
  function LetterFlag(c: char): (f: Castling)
    ensures f == CASTLE_NONE || IsCastlingFlag(f)
  {
    match c
    case 'K' => CASTLE_WK
    case 'Q' => CASTLE_WQ
    case 'k' => CASTLE_BK
    case 'q' => CASTLE_BQ
    case _ => CASTLE_NONE
  }

  /** The castling letter of each flag. */
  function FlagLetter(f: Castling): char
    requires IsCastlingFlag(f)
  {
    if f == CASTLE_WK then 'K' else if f == CASTLE_WQ then 'Q' else if f == CASTLE_BK then 'k' else 'q'
  }

  /** The en-passant field: a file letter and a rank digit give (8 - rank) * 8 + file; '-' or nothing gives no square. */
  function EnPassantField(fen: string, i: nat): int
    requires i <= |fen|
  {
    if i < |fen| && fen[i] != '-' then
      var epFile := fen[i] as int - 'a' as int;
      var epRank := 8 - (CharAt(fen, i + 1) as int - '0' as int);
      epRank * 8 + epFile
    else SQUARE_NONE
  }

  /** One colour's six boards ORed together. */
  function OrOf(boards: seq<U64>, lo: int): U64
    requires |boards| == 12 && (lo == 0 || lo == 6)
  {
    OrRun(boards, lo, 6)
  }

  /** White is the OR of boards 0-5, Black of 6-11, and Both is ORed onto its cleared value. */
  function OccupanciesOf(boards: seq<U64>): (occ: seq<U64>)
    requires |boards| == 12
    ensures |occ| == 3
  {
    [OrOf(boards, W_KING), OrOf(boards, B_KING), (0 | OrOf(boards, W_KING)) | OrOf(boards, B_KING)]
  }

  /** The whole board `parseFEN` leaves. */
  function ParseFENState(fen: string): BoardState
  {
    var placement := PlaceFrom(fen, 0, 0, 0, NoBoards);
    var side := SideField(fen, NextNonSpace(fen, placement.next));
    var castling := CastleFrom(fen, NextNonSpace(fen, side.1), CASTLE_NONE);
    var ep := EnPassantField(fen, NextNonSpace(fen, castling.next));
    BoardState(placement.boards, OccupanciesOf(placement.boards), side.0, ep, castling.castle)
  }

  // ---------------------------------------------------------------
  // The board
  // ---------------------------------------------------------------

  class Chessboard {
    const bitBoards: array<U64>
    const occupancyBitboards: array<U64>
    var side: Side
    var enPassant: int
    var castle: Castling

    predicate Valid()
    {
      bitBoards.Length == 12 && occupancyBitboards.Length == 3 && bitBoards != occupancyBitboards
    }

    function State(): BoardState
      reads this, bitBoards, occupancyBitboards
    {
      BoardState(bitBoards[..], occupancyBitboards[..], side, enPassant, castle)
    }

    /** A new board holds no pieces and no state, as `clear` leaves it. */
    constructor()
      ensures Valid() && fresh(bitBoards) && fresh(occupancyBitboards)
      ensures State() == ClearedState
    {
      bitBoards := new U64[12](i => 0);
      occupancyBitboards := new U64[3](i => 0);
      side := NoSide;
      enPassant := SQUARE_NONE;
      castle := CASTLE_NONE;
      new;
      assert bitBoards[..] == NoBoards;
      assert occupancyBitboards[..] == NoOccupancies;
    }

    /** Zeroes every bitboard and resets side, en-passant square and castling rights. */
    method Clear()
      requires Valid()
      modifies this, bitBoards, occupancyBitboards
      ensures Valid() && State() == ClearedState
    {
      forall k | 0 <= k < 12 {
        bitBoards[k] := 0;
      }
      forall k | 0 <= k < 3 {
        occupancyBitboards[k] := 0;
      }
      side := NoSide;
      enPassant := SQUARE_NONE;
      castle := CASTLE_NONE;
      assert bitBoards[..] == NoBoards;
      assert occupancyBitboards[..] == NoOccupancies;
    }

    /** Parses the start position. */
    method Init()
      requires Valid()
      modifies this, bitBoards, occupancyBitboards
      ensures Valid() && State() == ParseFENState(START_FEN)
    {
      ParseFEN(START_FEN);
    }

    /** Clears the board, then reads the placement, side, castling and en-passant fields; the clocks are not read. */
    method ParseFEN(fen: string)
      requires Valid()
      modifies this, bitBoards, occupancyBitboards
      ensures Valid() && State() == ParseFENState(fen)
    {
      Clear();
      var i := PlacePieces(fen);
      i := SkipSpaces(fen, i);
      i := ReadSide(fen, i);
      i := SkipSpaces(fen, i);
      i := ReadCastling(fen, i);
      i := SkipSpaces(fen, i);
      ReadEnPassant(fen, i);
      UpdateOccupancies();
    }

    /** The side-to-move field, read only when a character is left (see SideFieldAsWritten). */
    method ReadSide(fen: string, i0: nat) returns (i: nat)
      requires i0 <= |fen| && side == NoSide
      modifies this
      ensures (side, i) == SideField(fen, i0)
      ensures enPassant == old(enPassant) && castle == old(castle)
    {
      i := i0;
      if i < |fen| {
        side := if fen[i] == 'w' then White else Black;
        i := i + 1;
      }
    }

    /** The en-passant field. */
    method ReadEnPassant(fen: string, i: nat)
      requires i <= |fen|
      modifies this
      ensures enPassant == EnPassantField(fen, i)
      ensures side == old(side) && castle == old(castle)
    {
      if i < |fen| && fen[i] != '-' {
        var epFile := fen[i] as int - 'a' as int;
        var epRank := 8 - (CharAt(fen, i + 1) as int - '0' as int);
        enPassant := epRank * 8 + epFile;
      } else {
        enPassant := SQUARE_NONE;
      }
    }

    /** `skipSpaces`: moves past a run of spaces. */
    static method SkipSpaces(fen: string, i: nat) returns (j: nat)
      requires i <= |fen|
      ensures j == NextNonSpace(fen, i)
    {
      j := i;
      while j < |fen| && fen[j] == ' '
        invariant i <= j <= |fen|
        invariant NextNonSpace(fen, j) == NextNonSpace(fen, i)
      {
        j := j + 1;
      }
    }

    /** The placement loop, on a cleared board; it returns the index where the field ends. */
    method PlacePieces(fen: string) returns (i: nat)
      requires Valid() && bitBoards[..] == NoBoards
      modifies bitBoards
      ensures Valid()
      ensures PlaceFrom(fen, 0, 0, 0, NoBoards) == Placement(bitBoards[..], i)
    {
      i := 0;
      var rank: nat := 0;
      var file: nat := 0;
      while i < |fen| && fen[i] != ' '
        invariant i <= |fen|
        invariant PlaceFrom(fen, i, rank, file, bitBoards[..]) == PlaceFrom(fen, 0, 0, 0, NoBoards)
        decreases |fen| - i
      {
        rank, file := PlaceCharacter(fen, i, rank, file);
        i := i + 1;
      }
    }

    /** One character of the placement field: '/' starts the next rank, a digit skips files, a letter places a piece. */
    method PlaceCharacter(fen: string, i: nat, rank: nat, file: nat) returns (rank': nat, file': nat)
      requires Valid() && i < |fen| && fen[i] != ' '
      modifies bitBoards
      ensures Valid()
      ensures PlaceFrom(fen, i + 1, rank', file', bitBoards[..]) == PlaceFrom(fen, i, rank, file, old(bitBoards[..]))
    {
      var c := fen[i];
      rank', file' := rank, file;
      if c == '/' {
        rank' := rank + 1;
        file' := 0;
      } else if IsFenDigit(c) {
        file' := file + (c as int - '0' as int);
      } else if IsFenLetter(c) {
        PlaceLetter(PieceTypeFromChar(c), rank * 8 + file);
        file' := file + 1;
      }
    }

    /** `setBit` on one piece board: only that board changes. */
    method PlaceLetter(piece: int, square: int)
      requires Valid() && 0 <= piece < 12
      modifies bitBoards
      ensures bitBoards[..] == old(bitBoards[..])[piece := SetBit(old(bitBoards[piece]), square)]
    {
      bitBoards[piece] := SetBit(bitBoards[piece], square);
    }

    /** The castling loop; it returns the index where the field ends. */
    method ReadCastling(fen: string, i0: nat) returns (i: nat)
      requires i0 <= |fen|
      modifies this
      ensures CastleFrom(fen, i0, old(castle)) == CastleScan(castle, i)
      ensures side == old(side) && enPassant == old(enPassant)
    {
      i := i0;
      while i < |fen| && fen[i] != ' '
        invariant i <= |fen|
        invariant CastleFrom(fen, i, castle) == CastleFrom(fen, i0, old(castle))
        invariant side == old(side) && enPassant == old(enPassant)
        decreases |fen| - i
      {
        match fen[i] {
          case 'K' => castle := CastlingOr(castle, CASTLE_WK);
          case 'Q' => castle := CastlingOr(castle, CASTLE_WQ);
          case 'k' => castle := CastlingOr(castle, CASTLE_BK);
          case 'q' => castle := CastlingOr(castle, CASTLE_BQ);
          case _ =>
        }
        i := i + 1;
      }
    }

    /** White and Black occupancies from the piece boards, then Both ORed with each. */
    method UpdateOccupancies()
      requires Valid() && occupancyBitboards[SideIndex(Both)] == 0
      modifies occupancyBitboards
      ensures Valid() && occupancyBitboards[..] == OccupanciesOf(bitBoards[..])
    {
      ghost var pieces := bitBoards[..];
      SetSideOccupancies();
      AccumulateBoth();
      OccupanciesFromCells(occupancyBitboards[..], pieces);
    }

    method SetSideOccupancies()
      requires Valid()
      modifies occupancyBitboards
      ensures occupancyBitboards[0] == OrOf(bitBoards[..], W_KING)
      ensures occupancyBitboards[1] == OrOf(bitBoards[..], B_KING)
      ensures occupancyBitboards[2] == old(occupancyBitboards[2])
    {
      occupancyBitboards[SideIndex(White)] := OrOf(bitBoards[..], W_KING);
      occupancyBitboards[SideIndex(Black)] := OrOf(bitBoards[..], B_KING);
    }

    method AccumulateBoth()
      requires Valid()
      modifies occupancyBitboards
      ensures occupancyBitboards[0] == old(occupancyBitboards[0])
      ensures occupancyBitboards[1] == old(occupancyBitboards[1])
      ensures occupancyBitboards[2] == (old(occupancyBitboards[2]) | old(occupancyBitboards[0])) | old(occupancyBitboards[1])
    {
      occupancyBitboards[SideIndex(Both)] := occupancyBitboards[SideIndex(Both)] | occupancyBitboards[SideIndex(White)];
      occupancyBitboards[SideIndex(Both)] := occupancyBitboards[SideIndex(Both)] | occupancyBitboards[SideIndex(Black)];
    }
  }

  /** Three occupancy cells holding White, Black and their OR onto 0 are the occupancies of the boards. */
  lemma OccupanciesFromCells(s: seq<U64>, boards: seq<U64>)
    requires |s| == 3 && |boards| == 12
    requires s[0] == OrOf(boards, W_KING) && s[1] == OrOf(boards, B_KING)
    requires s[2] == (0 | OrOf(boards, W_KING)) | OrOf(boards, B_KING)
    ensures s == OccupanciesOf(boards)
  {
  }

  // ---------------------------------------------------------------
  // Properties of the parser
  // ---------------------------------------------------------------

  /**
   * Placement sets exactly the bits of the letters it meets: a bit of a
   * piece board is set afterwards iff it was set before or some letter of
   * that piece stands on that square.
   */
  lemma {:induction false} PlaceFromBits(fen: string, i: nat, rank: nat, file: nat, boards: seq<U64>, p: int, sq: int)
    requires i <= |fen| && |boards| == 12 && 0 <= p < 12 && 0 <= sq < 64
    ensures IsSet(PlaceFrom(fen, i, rank, file, boards).boards[p], sq) <==>
      IsSet(boards[p], sq) || Cell(p, sq) in CellsFrom(fen, i, rank, file)
    decreases |fen| - i, 1
  {
    if i < |fen| && fen[i] != ' ' {
      var c := fen[i];
      if c == '/' {
        PlaceFromBits(fen, i + 1, rank + 1, 0, boards, p, sq);
      } else if IsFenDigit(c) {
        PlaceFromBits(fen, i + 1, rank, file + (c as int - '0' as int), boards, p, sq);
      } else if IsFenLetter(c) {
        PlaceLetterBits(fen, i, rank, file, boards, p, sq);
      } else {
        PlaceFromBits(fen, i + 1, rank, file, boards, p, sq);
      }
    }
  }

  /** The letter step of PlaceFromBits: the letter's bit joins the boards and its cell the list. */
  lemma {:induction false} PlaceLetterBits(fen: string, i: nat, rank: nat, file: nat, boards: seq<U64>, p: int, sq: int)
    requires i < |fen| && IsFenLetter(fen[i]) && |boards| == 12 && 0 <= p < 12 && 0 <= sq < 64
    ensures IsSet(PlaceFrom(fen, i, rank, file, boards).boards[p], sq) <==>
      IsSet(boards[p], sq) || Cell(p, sq) in CellsFrom(fen, i, rank, file)
    decreases |fen| - i, 0
  {
    var piece := PieceTypeFromChar(fen[i]);
    var square := rank * 8 + file;
    var next := boards[piece := SetBit(boards[piece], square)];
    assert PlaceFrom(fen, i, rank, file, boards) == PlaceFrom(fen, i + 1, rank, file + 1, next);
    assert CellsFrom(fen, i, rank, file) == [Cell(piece, square)] + CellsFrom(fen, i + 1, rank, file + 1);
    PlaceFromBits(fen, i + 1, rank, file + 1, next, p, sq);
    PlaceOneBits(boards, piece, square, p, sq);
  }

  /** Setting one piece's bit changes only that bit of that board. */
  lemma PlaceOneBits(boards: seq<U64>, piece: int, square: nat, p: int, sq: int)
    requires |boards| == 12 && 0 <= piece < 12 && 0 <= p < 12 && 0 <= sq < 64
    ensures IsSet(boards[piece := SetBit(boards[piece], square)][p], sq) <==>
      IsSet(boards[p], sq) || (p == piece && square == sq)
  {
    if p == piece && square < 64 {
      SetBitBits(boards[piece], square, sq);
    }
  }

  /** The start position's piece offsets along a back rank, file a to h: rook, knight, bishop, queen, king, bishop, knight, rook. */
  function BackRankPiece(file: int): (p: int)
    requires 0 <= file < 8
    ensures W_KING <= p <= W_ROOK
  {
    if file == 0 || file == 7 then W_ROOK
    else if file == 1 || file == 6 then W_KNIGHT
    else if file == 2 || file == 5 then W_BISHOP
    else if file == 3 then W_QUEEN
    else W_KING
  }

  /** The piece index on each square of the start position, NO_PIECE on ranks 3 to 6. */
  function StartPiece(sq: int): int
    requires 0 <= sq < 64
  {
    if sq < 8 then BackRankPiece(sq) + B_KING
    else if sq < 16 then B_PAWN
    else if sq < 48 then NO_PIECE
    else if sq < 56 then W_PAWN
    else BackRankPiece(sq - 56)
  }

  /** Reading on into a second text continues exactly where reading the first one stopped. */
  lemma {:induction false} CellsShift(x: string, z: string, j: nat, rank: nat, file: nat)
    requires j <= |z|
    ensures CellsFrom(x + z, |x| + j, rank, file) == CellsFrom(z, j, rank, file)
    decreases |z| - j
  {
    var fen := x + z;
    assert fen[|x| + j..] == z[j..];
    if j < |z| && z[j] != ' ' {
      var c := z[j];
      assert fen[|x| + j] == c;
      if c == '/' {
        CellsShift(x, z, j + 1, rank + 1, 0);
      } else if IsFenDigit(c) {
        CellsShift(x, z, j + 1, rank, file + (c as int - '0' as int));
      } else if IsFenLetter(c) {
        CellsShift(x, z, j + 1, rank, file + 1);
      } else {
        CellsShift(x, z, j + 1, rank, file);
      }
    }
  }

  /** The letters of a space-free text followed by more text: those of the first, then those of the second from the cursor reached. */
  lemma {:induction false} CellsAppend(a: string, b: string, i: nat, rank: nat, file: nat)
    requires i <= |a| && ' ' !in a
    ensures CellsFrom(a + b, i, rank, file) ==
      CellsFrom(a, i, rank, file) + CellsFrom(b, 0, CursorFrom(a, i, rank, file).0, CursorFrom(a, i, rank, file).1)
    decreases |a| - i
  {
    if i == |a| {
      CellsShift(a, b, 0, rank, file);
    } else {
      var c := a[i];
      assert (a + b)[i] == c;
      if c == '/' {
        CellsAppend(a, b, i + 1, rank + 1, 0);
      } else if IsFenDigit(c) {
        CellsAppend(a, b, i + 1, rank, file + (c as int - '0' as int));
      } else if IsFenLetter(c) {
        CellsAppend(a, b, i + 1, rank, file + 1);
      } else {
        CellsAppend(a, b, i + 1, rank, file);
      }
    }
  }

  const RANK_8_CELLS: seq<Cell> := [Cell(B_ROOK, 0), Cell(B_KNIGHT, 1), Cell(B_BISHOP, 2), Cell(B_QUEEN, 3),
    Cell(B_KING, 4), Cell(B_BISHOP, 5), Cell(B_KNIGHT, 6), Cell(B_ROOK, 7)]
  const RANK_7_CELLS: seq<Cell> := [Cell(B_PAWN, 8), Cell(B_PAWN, 9), Cell(B_PAWN, 10), Cell(B_PAWN, 11),
    Cell(B_PAWN, 12), Cell(B_PAWN, 13), Cell(B_PAWN, 14), Cell(B_PAWN, 15)]
  const RANK_2_CELLS: seq<Cell> := [Cell(W_PAWN, 48), Cell(W_PAWN, 49), Cell(W_PAWN, 50), Cell(W_PAWN, 51),
    Cell(W_PAWN, 52), Cell(W_PAWN, 53), Cell(W_PAWN, 54), Cell(W_PAWN, 55)]
  const RANK_1_CELLS: seq<Cell> := [Cell(W_ROOK, 56), Cell(W_KNIGHT, 57), Cell(W_BISHOP, 58), Cell(W_QUEEN, 59),
    Cell(W_KING, 60), Cell(W_BISHOP, 61), Cell(W_KNIGHT, 62), Cell(W_ROOK, 63)]

  lemma StartRank8()
    ensures CellsFrom("rnbqkbnr/", 0, 0, 0) == RANK_8_CELLS
  {
    var a, b := "rnbq", "kbnr/";
    assert "rnbqkbnr/" == a + b;
    StartRank8Queenside();
    StartRank8Kingside();
    CellsAppend(a, b, 0, 0, 0);
    assert RANK_8_CELLS == RANK_8_CELLS[..4] + RANK_8_CELLS[4..];
  }

  lemma StartRank8Queenside()
    ensures CellsFrom("rnbq", 0, 0, 0) == RANK_8_CELLS[..4] && CursorFrom("rnbq", 0, 0, 0) == (0, 4)
  {
  }

  lemma StartRank8Kingside()
    ensures CellsFrom("kbnr/", 0, 0, 4) == RANK_8_CELLS[4..]
  {
  }

  lemma StartRank8Cursor()
    ensures CursorFrom("rnbqkbnr/", 0, 0, 0) == (1, 0)
  {
  }

  lemma StartRank7()
    ensures CellsFrom("pppppppp/", 0, 1, 0) == RANK_7_CELLS
  {
  }

  lemma StartRank7Cursor()
    ensures CursorFrom("pppppppp/", 0, 1, 0) == (2, 0)
  {
  }

  lemma StartEmptyRanks()
    ensures CellsFrom("8/8/8/8/", 0, 2, 0) == []
  {
  }

  lemma StartEmptyRanksCursor()
    ensures CursorFrom("8/8/8/8/", 0, 2, 0) == (6, 0)
  {
  }

  lemma StartRank2()
    ensures CellsFrom("PPPPPPPP/", 0, 6, 0) == RANK_2_CELLS
  {
  }

  lemma StartRank2Cursor()
    ensures CursorFrom("PPPPPPPP/", 0, 6, 0) == (7, 0)
  {
  }

  lemma StartRank1()
    ensures CellsFrom("RNBQKBNR", 0, 7, 0) == RANK_1_CELLS
  {
  }

  /** The placement loop meets the start position's 32 letters rank by rank, from rank 8 down. */
  lemma StartCells()
    ensures CellsFrom(START_PLACEMENT, 0, 0, 0) == RANK_8_CELLS + RANK_7_CELLS + RANK_2_CELLS + RANK_1_CELLS
  {
    var r8, r7, e, r2, r1 := "rnbqkbnr/", "pppppppp/", "8/8/8/8/", "PPPPPPPP/", "RNBQKBNR";
    assert START_PLACEMENT == r8 + (r7 + (e + (r2 + r1)));
    StartRank8();
    StartRank8Cursor();
    CellsAppend(r8, r7 + (e + (r2 + r1)), 0, 0, 0);
    StartRank7();
    StartRank7Cursor();
    CellsAppend(r7, e + (r2 + r1), 0, 1, 0);
    StartEmptyRanks();
    StartEmptyRanksCursor();
    CellsAppend(e, r2 + r1, 0, 2, 0);
    StartRank2();
    StartRank2Cursor();
    CellsAppend(r2, r1, 0, 6, 0);
    StartRank1();
  }

  lemma BlackCellsMembers(p: int, sq: int)
    requires 0 <= sq < 64
    ensures Cell(p, sq) in RANK_8_CELLS + RANK_7_CELLS <==> sq < 16 && StartPiece(sq) == p
  {
  }

  lemma WhiteCellsMembers(p: int, sq: int)
    requires 0 <= sq < 64
    ensures Cell(p, sq) in RANK_2_CELLS + RANK_1_CELLS <==> 48 <= sq && StartPiece(sq) == p
  {
  }

  /** The start position's letters stand exactly on the squares StartPiece gives them. */
  lemma StartCellsMembers(p: int, sq: int)
    requires 0 <= p < 12 && 0 <= sq < 64
    ensures Cell(p, sq) in CellsFrom(START_PLACEMENT, 0, 0, 0) <==> StartPiece(sq) == p
  {
    StartCells();
    BlackCellsMembers(p, sq);
    WhiteCellsMembers(p, sq);
    assert RANK_8_CELLS + RANK_7_CELLS + RANK_2_CELLS + RANK_1_CELLS == (RANK_8_CELLS + RANK_7_CELLS) + (RANK_2_CELLS + RANK_1_CELLS);
  }

  // ---------------------------------------------------------------
  // A position text with all four fields
  // ---------------------------------------------------------------

  /** The text of a position: the placement, side, castling and en-passant fields, then whatever follows. */
  function Fen(placement: string, sideChar: char, castling: string, ep: string, rest: string): string
  {
    placement + [' ', sideChar, ' '] + castling + [' '] + ep + rest
  }

  /** Each field is non-empty and free of spaces (the placement may be empty), and what follows starts with a space. */
  predicate FieldsWellFormed(placement: string, sideChar: char, castling: string, ep: string, rest: string)
  {
    ' ' !in placement && sideChar != ' ' && |castling| > 0 && ' ' !in castling && |ep| > 0 && ' ' !in ep &&
    (rest == [] || rest[0] == ' ')
  }

  /** The castling loop on a field with text before and after it reads just the field. */
  lemma {:induction false} CastleWithin(x: string, cs: string, y: string, j: nat, c: Castling)
    requires j <= |cs| && ' ' !in cs && (y == [] || y[0] == ' ')
    ensures CastleFrom(x + cs + y, |x| + j, c) == CastleScan(CastleFrom(cs, j, c).castle, |x| + |cs|)
    decreases |cs| - j
  {
    var fen := x + cs + y;
    if j < |cs| {
      assert fen[|x| + j] == cs[j];
      CastleWithin(x, cs, y, j + 1, CastlingOr(c, LetterFlag(cs[j])));
    } else if y != [] {
      assert fen[|x| + |cs|] == ' ';
    }
  }

  /** The characters around the field boundaries of a well-formed text. */
  lemma FieldChars(placement: string, sideChar: char, castling: string, ep: string, rest: string)
    requires FieldsWellFormed(placement, sideChar, castling, ep, rest)
    ensures var fen := Fen(placement, sideChar, castling, ep, rest);
      var n := |placement|;
      |fen| > n + 4 + |castling| &&
      (forall k :: 0 <= k < n ==> fen[k] != ' ') &&
      fen[n] == ' ' && fen[n + 1] == sideChar && fen[n + 2] == ' ' && fen[n + 3] != ' '
  {
    var fen := Fen(placement, sideChar, castling, ep, rest);
    var n := |placement|;
    assert fen == placement + ([' ', sideChar, ' '] + castling + [' '] + ep + rest);
    assert fen[n + 3] == castling[0];
  }

  /** The placement loop stops at the first space. */
  lemma PlaceEnds(fen: string, n: nat)
    requires n < |fen| && fen[n] == ' ' && forall k :: 0 <= k < n ==> fen[k] != ' '
    ensures PlaceFrom(fen, 0, 0, 0, NoBoards).next == n
  {
  }

  /** Where each loop of the parser stops on a well-formed text. */
  lemma FieldIndices(placement: string, sideChar: char, castling: string, ep: string, rest: string)
    requires FieldsWellFormed(placement, sideChar, castling, ep, rest)
    ensures var fen := Fen(placement, sideChar, castling, ep, rest);
      var n := |placement|;
      PlaceFrom(fen, 0, 0, 0, NoBoards).next == n &&
      NextNonSpace(fen, n) == n + 1 &&
      SideField(fen, n + 1) == (if sideChar == 'w' then White else Black, n + 2) &&
      NextNonSpace(fen, n + 2) == n + 3
  {
    FieldChars(placement, sideChar, castling, ep, rest);
    PlaceEnds(Fen(placement, sideChar, castling, ep, rest), |placement|);
  }

  /** The castling loop reads just the castling field, and the en-passant field follows one space later. */
  lemma CastleIndices(placement: string, sideChar: char, castling: string, ep: string, rest: string)
    requires FieldsWellFormed(placement, sideChar, castling, ep, rest)
    ensures var fen := Fen(placement, sideChar, castling, ep, rest);
      var n := |placement|;
      n + 4 + |castling| < |fen| &&
      CastleFrom(fen, n + 3, CASTLE_NONE) == CastleScan(CastleFrom(castling, 0, CASTLE_NONE).castle, n + 3 + |castling|) &&
      NextNonSpace(fen, n + 3 + |castling|) == n + 4 + |castling|
  {
    var fen := Fen(placement, sideChar, castling, ep, rest);
    var x := placement + [' ', sideChar, ' '];
    var y := [' '] + ep + rest;
    assert fen == x + castling + y;
    CastleWithin(x, castling, y, 0, CASTLE_NONE);
    assert fen == (x + castling) + y;
    assert fen[|x| + |castling|] == ' ' && fen[|x| + |castling| + 1] == ep[0];
  }

  /** On a well-formed text, side, castling and en passant come from their own fields. */
  lemma ParseFields(placement: string, sideChar: char, castling: string, ep: string, rest: string)
    requires FieldsWellFormed(placement, sideChar, castling, ep, rest)
    ensures ParseFENState(Fen(placement, sideChar, castling, ep, rest)).side == if sideChar == 'w' then White else Black
    ensures ParseFENState(Fen(placement, sideChar, castling, ep, rest)).castle == CastleFrom(castling, 0, CASTLE_NONE).castle
    ensures ParseFENState(Fen(placement, sideChar, castling, ep, rest)).enPassant == EnPassantField(ep + rest, 0)
  {
    FieldIndices(placement, sideChar, castling, ep, rest);
    CastleIndices(placement, sideChar, castling, ep, rest);
    var fen := Fen(placement, sideChar, castling, ep, rest);
    var e0 := |placement| + 4 + |castling|;
    var x := placement + [' ', sideChar, ' '] + castling + [' '];
    assert fen == x + (ep + rest) && |x| == e0;
    assert fen[e0] == (ep + rest)[0];
    assert CharAt(fen, e0 + 1) == CharAt(ep + rest, 1);
  }

  /** The placement loop, on a field followed by a space, sets exactly the bits of the field's letters. */
  lemma PlacementBits(placement: string, y: string, p: int, sq: int)
    requires ' ' !in placement && y != [] && y[0] == ' '
    requires 0 <= p < 12 && 0 <= sq < 64
    ensures IsSet(PlaceFrom(placement + y, 0, 0, 0, NoBoards).boards[p], sq) <==>
      Cell(p, sq) in CellsFrom(placement, 0, 0, 0)
  {
    PlaceFromBits(placement + y, 0, 0, 0, NoBoards, p, sq);
    ZeroBits(sq);
    CellsAppend(placement, y, 0, 0, 0);
  }

  /** On a well-formed text, a piece board has exactly the bits of that piece's letters in the placement field. */
  lemma ParsePieces(placement: string, sideChar: char, castling: string, ep: string, rest: string, p: int, sq: int)
    requires FieldsWellFormed(placement, sideChar, castling, ep, rest)
    requires 0 <= p < 12 && 0 <= sq < 64
    ensures IsSet(ParseFENState(Fen(placement, sideChar, castling, ep, rest)).pieces[p], sq) <==>
      Cell(p, sq) in CellsFrom(placement, 0, 0, 0)
  {
    var y := [' ', sideChar, ' '] + castling + [' '] + ep + rest;
    assert Fen(placement, sideChar, castling, ep, rest) == placement + y;
    PlacementBits(placement, y, p, sq);
  }

  /** The castling field sets a right exactly when it holds that right's letter. */
  lemma {:induction false} CastleLetters(cs: string, j: nat, c: Castling, f: Castling)
    requires j <= |cs| && ' ' !in cs && IsCastlingFlag(f)
    ensures Has(CastleFrom(cs, j, c).castle, f) <==> Has(c, f) || FlagLetter(f) in cs[j..]
    decreases |cs| - j
  {
    if j < |cs| {
      var g := LetterFlag(cs[j]);
      CastleLetters(cs, j + 1, CastlingOr(c, g), f);
      HasOr(c, g, f);
      if g == CASTLE_NONE {
        CastlingFlagBits();
      } else {
        FlagsIndependent(g, f);
      }
      assert cs[j..] == [cs[j]] + cs[j + 1..];
    }
  }

  /** An en-passant field naming a square gives that square; '-' gives no square. */
  lemma EnPassantSquare(s: int, rest: string)
    requires 0 <= s < 64
    ensures EnPassantField(SquareName(s) + rest, 0) == s
    ensures EnPassantField("-" + rest, 0) == SQUARE_NONE
  {
    NameRoundTrip(s);
    assert (SquareName(s) + rest)[..2] == SquareName(s);
  }

  // ---------------------------------------------------------------
  // Occupancies
  // ---------------------------------------------------------------

  /** A side's occupancy has a square exactly when one of that side's six piece boards has it. */
  lemma SideOccupancyBits(boards: seq<U64>, lo: int, sq: int)
    requires |boards| == 12 && (lo == W_KING || lo == B_KING) && 0 <= sq < 64
    ensures IsSet(OrOf(boards, lo), sq) ==> exists p :: lo <= p < lo + 6 && IsSet(boards[p], sq)
    ensures forall p :: lo <= p < lo + 6 && IsSet(boards[p], sq) ==> IsSet(OrOf(boards, lo), sq)
  {
    OrRunSome(boards, lo, 6, sq);
    forall p | lo <= p < lo + 6
      ensures IsSet(boards[p], sq) ==> IsSet(OrOf(boards, lo), sq)
    {
      OrRunEach(boards, lo, 6, p, sq);
    }
  }

  /** Both occupancy, ORed onto zero from White and Black, has a square exactly when either side has it. */
  lemma BothBits(white: U64, black: U64, sq: int)
    requires 0 <= sq < 64
    ensures IsSet((0 | white) | black, sq) <==> IsSet(white, sq) || IsSet(black, sq)
  {
    assert 0 | white == white;
    OrBits(white, black, sq);
  }

  /** Both occupancy has a square exactly when White or Black occupancy has it. */
  lemma OccupancyBits(boards: seq<U64>, sq: int)
    requires |boards| == 12 && 0 <= sq < 64
    ensures IsSet(OccupanciesOf(boards)[2], sq) <==>
      IsSet(OccupanciesOf(boards)[0], sq) || IsSet(OccupanciesOf(boards)[1], sq)
  {
    var occ := OccupanciesOf(boards);
    assert occ[2] == (0 | occ[0]) | occ[1];
    BothBits(occ[0], occ[1], sq);
  }

  /** A board whose squares are exactly one run of consecutive squares has that many bits. */
  lemma CountOfRun(b: U64, lo: nat, hi: nat)
    requires lo <= hi <= 64
    requires forall j :: 0 <= j < 64 ==> (IsSet(b, j) <==> lo <= j < hi)
    ensures CountBits(b) == hi - lo
  {
    ClearRunCount(b, 0, lo);
    SetRunCount(b, lo, hi);
    ClearRunCount(b, hi, 64);
  }

  /** A board whose squares are the first `m` and the last `m` squares has 2m bits. */
  lemma CountOfEnds(b: U64, m: nat)
    requires m <= 32
    requires forall j :: 0 <= j < 64 ==> (IsSet(b, j) <==> j < m || 64 - m <= j)
    ensures CountBits(b) == 2 * m
  {
    SetRunCount(b, 0, m);
    ClearRunCount(b, m, 64 - m);
    SetRunCount(b, 64 - m, 64);
  }

  // ---------------------------------------------------------------
  // The start position
  // ---------------------------------------------------------------

  /** The start position text has the four fields in their places. */
  lemma StartFenShape()
    ensures START_FEN == Fen(START_PLACEMENT, 'w', "KQkq", "-", " 0 1 ")
    ensures FieldsWellFormed(START_PLACEMENT, 'w', "KQkq", "-", " 0 1 ")
  {
    assert " w KQkq - 0 1 " == [' ', 'w', ' '] + "KQkq" + [' '] + "-" + " 0 1 ";
    assert ' ' !in START_PLACEMENT by {
      var r8, r7, e, r2, r1 := "rnbqkbnr/", "pppppppp/", "8/8/8/8/", "PPPPPPPP/", "RNBQKBNR";
      assert ' ' !in r8 && ' ' !in r7 && ' ' !in e && ' ' !in r2 && ' ' !in r1;
      assert START_PLACEMENT == r8 + r7 + e + r2 + r1;
    }
  }

  /** After `init`, white is to move, all four castling rights are set and there is no en-passant square. */
  lemma StartFields()
    ensures ParseFENState(START_FEN).side == White
    ensures ParseFENState(START_FEN).castle == CASTLE_WK | CASTLE_WQ | CASTLE_BK | CASTLE_BQ
    ensures ParseFENState(START_FEN).enPassant == SQUARE_NONE
  {
    StartFenShape();
    ParseFields(START_PLACEMENT, 'w', "KQkq", "-", " 0 1 ");
    AllRights();
  }

  lemma AllRights()
    ensures CastleFrom("KQkq", 0, CASTLE_NONE).castle == CASTLE_WK | CASTLE_WQ | CASTLE_BK | CASTLE_BQ
  {
  }

  /** After `init`, each piece board holds exactly the squares of that piece in the standard start position. */
  lemma StartPieces(p: int, sq: int)
    requires 0 <= p < 12 && 0 <= sq < 64
    ensures IsSet(ParseFENState(START_FEN).pieces[p], sq) <==> StartPiece(sq) == p
  {
    StartFenShape();
    ParsePieces(START_PLACEMENT, 'w', "KQkq", "-", " 0 1 ", p, sq);
    StartCellsMembers(p, sq);
  }

  /** Boards holding the start position give white the squares 48-63 and black the squares 0-15. */
  lemma StartOccupancyOf(boards: seq<U64>, sq: int)
    requires |boards| == 12 && 0 <= sq < 64
    requires forall p :: 0 <= p < 12 ==> (IsSet(boards[p], sq) <==> StartPiece(sq) == p)
    ensures IsSet(OrOf(boards, W_KING), sq) <==> 48 <= sq
    ensures IsSet(OrOf(boards, B_KING), sq) <==> sq < 16
  {
    SideOccupancyBits(boards, W_KING, sq);
    SideOccupancyBits(boards, B_KING, sq);
    if 48 <= sq {
      assert IsSet(boards[StartPiece(sq)], sq);
    }
    if sq < 16 {
      assert IsSet(boards[StartPiece(sq)], sq);
    }
  }

  /** After `init`, white occupies ranks 1 and 2, black ranks 7 and 8. */
  lemma StartOccupancy(sq: int)
    requires 0 <= sq < 64
    ensures IsSet(ParseFENState(START_FEN).occupancies[0], sq) <==> 48 <= sq
    ensures IsSet(ParseFENState(START_FEN).occupancies[1], sq) <==> sq < 16
    ensures IsSet(ParseFENState(START_FEN).occupancies[2], sq) <==> sq < 16 || 48 <= sq
  {
    var boards := ParseFENState(START_FEN).pieces;
    forall p | 0 <= p < 12
      ensures IsSet(boards[p], sq) <==> StartPiece(sq) == p
    {
      StartPieces(p, sq);
    }
    StartOccupancyOf(boards, sq);
    OccupancyBits(boards, sq);
  }

  /** Occupancies with white on 48-63 and black on 0-15 count 16, 16 and 32 squares. */
  lemma StartCountsOf(occ: seq<U64>)
    requires |occ| == 3
    requires forall sq :: 0 <= sq < 64 ==> (IsSet(occ[0], sq) <==> 48 <= sq)
    requires forall sq :: 0 <= sq < 64 ==> (IsSet(occ[1], sq) <==> sq < 16)
    requires forall sq :: 0 <= sq < 64 ==> (IsSet(occ[2], sq) <==> sq < 16 || 48 <= sq)
    ensures CountBits(occ[0]) == 16 && CountBits(occ[1]) == 16 && CountBits(occ[2]) == 32
  {
    CountOfRun(occ[0], 48, 64);
    CountOfRun(occ[1], 0, 16);
    CountOfEnds(occ[2], 16);
  }

  /** After `init`, white and black have 16 pieces each and the board 32. */
  lemma StartCounts()
    ensures CountBits(ParseFENState(START_FEN).occupancies[0]) == 16
    ensures CountBits(ParseFENState(START_FEN).occupancies[1]) == 16
    ensures CountBits(ParseFENState(START_FEN).occupancies[2]) == 32
  {
    var occ := ParseFENState(START_FEN).occupancies;
    forall sq | 0 <= sq < 64
      ensures (IsSet(occ[0], sq) <==> 48 <= sq) && (IsSet(occ[1], sq) <==> sq < 16) &&
        (IsSet(occ[2], sq) <==> sq < 16 || 48 <= sq)
    {
      StartOccupancy(sq);
    }
    StartCountsOf(occ);
  }


  // ---------------------------------------------------------------
  // Single fields
  // ---------------------------------------------------------------

  /** A well-formed text gets exactly the castling rights whose letters its castling field holds. */
  lemma ParseCastling(placement: string, sideChar: char, castling: string, ep: string, rest: string, f: Castling)
    requires FieldsWellFormed(placement, sideChar, castling, ep, rest) && IsCastlingFlag(f)
    ensures Has(ParseFENState(Fen(placement, sideChar, castling, ep, rest)).castle, f) <==> FlagLetter(f) in castling
  {
    ParseFields(placement, sideChar, castling, ep, rest);
    CastleLetters(castling, 0, CASTLE_NONE, f);
    CastlingFlagBits();
    assert castling[0..] == castling;
  }

  /** A well-formed text whose en-passant field names a square gets that square. */
  lemma ParseEnPassant(placement: string, sideChar: char, castling: string, s: int, rest: string)
    requires 0 <= s < 64 && FieldsWellFormed(placement, sideChar, castling, SquareName(s), rest)
    ensures ParseFENState(Fen(placement, sideChar, castling, SquareName(s), rest)).enPassant == s
  {
    ParseFields(placement, sideChar, castling, SquareName(s), rest);
    EnPassantSquare(s, rest);
  }

  /** A well-formed text whose en-passant field is '-' has no en-passant square. */
  lemma ParseNoEnPassant(placement: string, sideChar: char, castling: string, rest: string)
    requires FieldsWellFormed(placement, sideChar, castling, "-", rest)
    ensures ParseFENState(Fen(placement, sideChar, castling, "-", rest)).enPassant == SQUARE_NONE
  {
    ParseFields(placement, sideChar, castling, "-", rest);
    EnPassantSquare(0, rest);
  }

  /** The castling field "Kq" grants white kingside and black queenside castling and nothing else. */
  lemma LimitedCastling(placement: string, sideChar: char, ep: string, rest: string)
    requires FieldsWellFormed(placement, sideChar, "Kq", ep, rest)
    ensures var c := ParseFENState(Fen(placement, sideChar, "Kq", ep, rest)).castle;
      Has(c, CASTLE_WK) && !Has(c, CASTLE_WQ) && !Has(c, CASTLE_BK) && Has(c, CASTLE_BQ)
  {
    CastlingFlagBits();
    ParseCastling(placement, sideChar, "Kq", ep, rest, CASTLE_WK);
    ParseCastling(placement, sideChar, "Kq", ep, rest, CASTLE_WQ);
    ParseCastling(placement, sideChar, "Kq", ep, rest, CASTLE_BK);
    ParseCastling(placement, sideChar, "Kq", ep, rest, CASTLE_BQ);
  }

  /** The en-passant field "e6" gives square 20 (rank 6, file e). */
  lemma EnPassantE6(placement: string, sideChar: char, castling: string, rest: string)
    requires FieldsWellFormed(placement, sideChar, castling, "e6", rest)
    ensures ParseFENState(Fen(placement, sideChar, castling, "e6", rest)).enPassant == 20
  {
    assert SquareName(20) == "e6";
    ParseEnPassant(placement, sideChar, castling, 20, rest);
  }

  // ---------------------------------------------------------------
  // The side-to-move guard
  // ---------------------------------------------------------------

  /**
   * On a text that is only a placement field, the parser as written reads
   * the side character past the end of the text and sets Black, and its
   * index then lies beyond the text; the intended guard leaves the side unset.
   */
  lemma SideGuardReadsPastEnd(fen: string)
    requires ' ' !in fen
    ensures var j := NextNonSpace(fen, PlaceFrom(fen, 0, 0, 0, NoBoards).next);
      j == |fen| && SideFieldAsWritten(fen, j) == (Black, |fen| + 1) && SideField(fen, j) == (NoSide, |fen|)
  {
  }

  /** The empty board's placement shows it: the side as written is Black, the intended one none. */
  lemma EmptyPlacementSide()
    ensures SideFieldAsWritten("8/8/8/8/8/8/8/8", 15).0 == Black
    ensures SideField("8/8/8/8/8/8/8/8", 15).0 == NoSide
  {
    SideGuardReadsPastEnd("8/8/8/8/8/8/8/8");
  }
}
