# Chess engine core in Dafny

This project models the core of a chess engine and its tools, one Dafny module per core source file:

- **The mailbox board** (`LightBoard`). This is the 8x8 array board the CPU player searches on. The model covers piece placement, the start position, castling rights inferred from the pieces, making and taking back a move, material, counts, the game phase and the movement rules.
- **The bitboard board** (`Bitboard`, `BitboardTypes`, `AttackTables`, `SliderAttacks`). This is the newer board made of twelve 64-bit piece boards. The model covers the FEN parser, the square, piece and castling enums, the leaper masks, and the slider ray generators with their occupancy masks.
- **Move generation on bitboards** (`MoveGeneration`). It covers pawn, piece, king and castling moves pushed onto a move list, and the 16-bit packed move with its flags (`MoveEncoding`).
- **Algebraic notation** of executed moves (`MoveNotation`). The history of executed moves and the castling geometry are in `MoveHistory`.
- **Heuristic move evaluation** (`MoveEvaluation`) and the whole-position terms (`PositionalEvaluation`).
- **The two CPU players.** The older minimax and alpha-beta player is `CpuPlayer`. The newer alpha-beta player, with its transposition table and candidate filter, is `CpuSearch`.
- **The human player's captured pieces and score** (`PlayerStats`).
- **The game-flow state machine** (`GameStateMachine`) and **network discovery of remote games** (`Discovery`).
- **The performance-data flattening** of the analysis script (`PerformanceAnalyzer`).

Shared piece kinds, colours, squares and move-type flags live in `ChessTypes`.

How the source's constructs are modelled:

- A C++ move type is a set of bit flags. The model holds it as `set<MoveFlag>`, so `(t & F) == F` becomes `F in t`.
- Bitboards are `bv64`, and the packed move is `bv16`.
- The light board's `mBoard[x][y]` is a 64-cell array indexed `x * 8 + y`.
- Objects whose methods update fields are classes. Their methods are proved against functions on snapshots of their state.
- Random draws, the game manager's answers, move generation results, search results, socket binds and timestamps parsing are parameters.

## Model

| member | source | states |
|---|---|---|
| ChessTypes.Opponent | Chess.Engine/Chess.Engine.Core/src/Moves/Evaluation/MoveEvaluation.cpp:1018-1021 | White faces Black; every other colour, "no colour" included, is answered with White |
| LightBoard.PieceValue | Chess.Engine/src/Chess.Engine.Core/src/Board/LightChessBoard.h:164 | the value table indexed by piece kind; no value is negative |
| LightBoard.PositionsExact | Chess.Engine/Chess.Engine.Core/src/Board/LightChessBoard.cpp:387-422 | the listed squares are exactly the squares holding a matching piece of the player, each once, and there are as many as getPieceCount counts |
| LightBoard.ScanFile | Chess.Engine/Chess.Engine.Core/src/Board/LightChessBoard.cpp:392-400 | the inner loop appends the matching squares of one file, rank by rank |
| LightBoard.PhaseOfMaterial | Chess.Engine/Chess.Engine.Core/src/Board/LightChessBoard.cpp:703-718 | the phase value is 0, 1 or 2; it is 0 exactly from 7800 total material up and 2 exactly at 2500 or below |
| LightBoard.InferRights | Chess.Engine/Chess.Engine.Core/src/Board/LightChessBoard.cpp:198-212 | inferring touches only the four rights: pieces, side, king squares, en-passant target and clocks are kept |
| LightBoard.WhiteRightsInferred | Chess.Engine/Chess.Engine.Core/src/Board/LightChessBoard.cpp:198-212 | a White right holds exactly when the king on e1 and that rook on its corner are both unmoved |
| LightBoard.BlackRightsInferred | Chess.Engine/Chess.Engine.Core/src/Board/LightChessBoard.cpp:198-212 | the same for Black, on the first row |
| LightBoard.MovedKingLosesRights | Chess.Engine/Chess.Engine.Core/src/Board/LightChessBoard.cpp:198-212 | a king marked as moved on its home square removes both rights of its side |
| LightBoard.PlaceStartPieces | Chess.Engine/Chess.Engine.Core/src/Board/LightChessBoard.cpp:721-752 | initializePieces replaces the four start rows with the standard armies and keeps every other square |
| LightBoard.StartColumnMaterial | Chess.Engine/Chess.Engine.Core/src/Board/LightChessBoard.cpp:721-752 | each file of the start layout adds its back-rank piece and one pawn to each side's material |
| LightBoard.StartingPosition | Chess.Engine/Chess.Engine.Core/src/Board/LightChessBoard.cpp:54-58 | the start position has 16 pieces and 4000 of material per side, so its phase value is 0 (opening) |
| LightBoard.StartRights | Chess.Engine/Chess.Engine.Core/src/Board/LightChessBoard.cpp:198-212 | on the start layout all four castling rights are inferred |
| LightBoard.OrdinaryMovePlacement | Chess.Engine/Chess.Engine.Core/src/Board/LightChessBoard.cpp:268-322 | an ordinary move or capture puts the mover, marked as moved, on the destination, empties the start square and leaves every other square alone |
| LightBoard.NormalMoveAt | Chess.Engine/Chess.Engine.Core/src/Board/LightChessBoard.cpp:290-305 | square by square after a move that is neither castling nor en passant: destination, start square, and all others unchanged |
| LightBoard.PromotionPlacement | Chess.Engine/Chess.Engine.Core/src/Board/LightChessBoard.cpp:290-305 | a promotion leaves the chosen piece, in the pawn's colour, on the destination and empties the start square |
| LightBoard.ClocksAfterMove | Chess.Engine/Chess.Engine.Core/src/Board/LightChessBoard.cpp:1019-1042 | after any move the other side is to move, the full-move number grows exactly after Black's move, the half-move clock resets exactly on a pawn move or capture, and a target is set exactly after a double step |
| LightBoard.GameStateAfterClocks | Chess.Engine/Chess.Engine.Core/src/Board/LightChessBoard.cpp:1019-1042 | the same, for the piece found on the destination |
| LightBoard.DoubleStepTarget | Chess.Engine/Chess.Engine.Core/src/Board/LightChessBoard.cpp:1023-1030 | a pawn's double step from its start row makes the square it crossed the en-passant target |
| LightBoard.RightsAfterMove | Chess.Engine/Chess.Engine.Core/src/Board/LightChessBoard.cpp:997-1017 | a king move removes both rights of its colour, a rook moving off the a or h file removes its colour's right on that wing, and no other move changes any right |
| LightBoard.LightChessBoard.UpdateRights | Chess.Engine/Chess.Engine.Core/src/Board/LightChessBoard.cpp:995-1017 | only the castling rights change, as the rights rule for the moving piece says |
| LightBoard.LightChessBoard.RestoreGameState | Chess.Engine/Chess.Engine.Core/src/Board/LightChessBoard.cpp:371-380 | the en-passant square, the four castling rights and both move counters come back from the undo record, the side to move switches back, and the squares stay as they are |
| LightBoard.CastlingPlacement | Chess.Engine/Chess.Engine.Core/src/Board/LightChessBoard.cpp:959-975 | castling puts the king on its destination and the rook on the square beside it, both on the home row, empties their start squares and changes nothing else |
| LightBoard.MakeUnmakeRoundTrip | Chess.Engine/Chess.Engine.Core/src/Board/LightChessBoard.cpp:325-384 | the corrected unmake after makeMove gives back the whole board state, for every kind of move |
| LightBoard.CellsRoundTrip | Chess.Engine/Chess.Engine.Core/src/Board/LightChessBoard.cpp:330-363 | the squares of a reversible move come back under the corrected unmake |
| LightBoard.MakeStateFields | Chess.Engine/Chess.Engine.Core/src/Board/LightChessBoard.cpp:268-322 | what makeMove leaves: its squares, a king square that follows the king, and the side to move switched |
| LightBoard.AsWrittenOrdinaryRoundTrip | Chess.Engine/Chess.Engine.Core/src/Board/LightChessBoard.cpp:352-363 | for an ordinary move or capture the unmake as written restores the kind and colour of every square |
| LightBoard.AsWrittenCastlingUnmake | Chess.Engine/Chess.Engine.Core/src/Board/LightChessBoard.cpp:334-344 | after castling the unmake as written leaves a king on the destination as well as on the start square, so the board differs from the one before the move |
| LightBoard.AsWrittenEnPassantUnmake | Chess.Engine/Chess.Engine.Core/src/Board/LightChessBoard.cpp:345-351 | after en passant the unmake as written puts the empty destination's old contents on the captured pawn's square, so the pawn is lost |
| LightBoard.AsWrittenPromotionUnmake | Chess.Engine/Chess.Engine.Core/src/Board/LightChessBoard.cpp:352-363 | after a promotion the unmake as written puts the promoted piece, not the pawn, back on the start square |
| LightBoard.CanMoveGuard | Chess.Engine/Chess.Engine.Core/src/Board/LightChessBoard.cpp:519-520 | no move starts or ends off the board, and no piece moves to its own square |
| LightBoard.QueenIsRookOrBishop | Chess.Engine/Chess.Engine.Core/src/Board/LightChessBoard.cpp:517-564 | a queen may move exactly where a rook or a bishop of its colour may |
| LightBoard.PawnDoubleStep | Chess.Engine/Chess.Engine.Core/src/Board/LightChessBoard.cpp:517-564 | a pawn moves two squares only straight ahead from its start row, over an empty square onto an empty one |
| LightBoard.PawnDiagonal | Chess.Engine/Chess.Engine.Core/src/Board/LightChessBoard.cpp:517-564 | a pawn moves diagonally only one row forward, onto an enemy piece or the en-passant target |
| LightBoard.LeapersIgnoreBlockers | Chess.Engine/Chess.Engine.Core/src/Board/LightChessBoard.cpp:517-564 | knight and king moves do not depend on what stands between the squares |
| LightBoard.SlidersOnEmptyBoard | Chess.Engine/Chess.Engine.Core/src/Board/LightChessBoard.cpp:517-564 | on an empty board a slider reaches every other square of its lines |
| LightBoard.PhaseMonotone | Chess.Engine/Chess.Engine.Core/src/Board/LightChessBoard.cpp:703-718 | less total material never gives an earlier phase |
| LightBoard.EndgameMaterialPhase | Chess.Engine/Chess.Engine.Core/src/Board/LightChessBoard.cpp:693-700 | below 2500 total material the board is an endgame and its phase value is 2 |
| LightBoard.LightChessBoard.Clear | Chess.Engine/Chess.Engine.Core/src/Board/LightChessBoard.cpp:91-114 | every square is empty; side, king squares, target, rights and clocks are back to their initial values |
| LightBoard.LightChessBoard.SetPiece | Chess.Engine/Chess.Engine.Core/src/Board/LightChessBoard.cpp:129-140 | the square gets the piece and no other square changes |
| LightBoard.LightChessBoard.RemovePiece | Chess.Engine/Chess.Engine.Core/src/Board/LightChessBoard.cpp:143-154 | the square becomes empty and no other square changes |
| LightBoard.LightChessBoard.InitializeStartingPosition | Chess.Engine/Chess.Engine.Core/src/Board/LightChessBoard.cpp:54-58 | the board is the start position, with all four rights and White to move |
| LightBoard.LightChessBoard.InitializePieces | Chess.Engine/Chess.Engine.Core/src/Board/LightChessBoard.cpp:721-752 | the squares become PlaceStartPieces of the old squares: the four start rows hold the armies, the rest is kept |
| LightBoard.LightChessBoard.UpdateKingPosition | Chess.Engine/Chess.Engine.Core/src/Board/LightChessBoard.cpp:187-195 | White's king square is set for White and Black's for any other colour; nothing else changes |
| LightBoard.LightChessBoard.SetCastlingRights | Chess.Engine/Chess.Engine.Core/src/Board/LightChessBoard.cpp:227-240 | the two rights of the given colour are set and nothing else changes |
| LightBoard.LightChessBoard.InferCastlingRights | Chess.Engine/Chess.Engine.Core/src/Board/LightChessBoard.cpp:198-212 | the board state becomes InferRights of the old state |
| LightBoard.LightChessBoard.ExecuteCastling | Chess.Engine/Chess.Engine.Core/src/Board/LightChessBoard.cpp:959-975 | the squares become the castled squares of the old squares |
| LightBoard.LightChessBoard.ExecuteEnPassant | Chess.Engine/Chess.Engine.Core/src/Board/LightChessBoard.cpp:978-989 | the pawn lands on the target and the captured pawn beside its start square is removed |
| LightBoard.LightChessBoard.UpdateGameState | Chess.Engine/Chess.Engine.Core/src/Board/LightChessBoard.cpp:992-1043 | rights, en-passant target, clocks and side to move become GameStateAfter of the old state |
| LightBoard.LightChessBoard.MakeMove | Chess.Engine/Chess.Engine.Core/src/Board/LightChessBoard.cpp:268-322 | the state becomes MakeState of the old state, and the returned record holds everything needed to take the move back |
| LightBoard.LightChessBoard.UnmakeMove | Chess.Engine/Chess.Engine.Core/src/Board/LightChessBoard.cpp:325-384 | the corrected unmake; after MakeMove it gives back the old state, by MakeUnmakeRoundTrip |
| LightBoard.LightChessBoard.GetMaterialValue | Chess.Engine/Chess.Engine.Core/src/Board/LightChessBoard.cpp:425-441 | the result is the material sum of the player's pieces over the whole board |
| LightBoard.LightChessBoard.GetPieceCount | Chess.Engine/Chess.Engine.Core/src/Board/LightChessBoard.cpp:444-478 | the number of the player's pieces, of the given kind unless any kind is asked for |
| LightBoard.LightChessBoard.GetPiecePositions | Chess.Engine/Chess.Engine.Core/src/Board/LightChessBoard.cpp:387-422 | the squares of the player's matching pieces, file by file |
| LightBoard.LightChessBoard.GetGamePhaseValue | Chess.Engine/Chess.Engine.Core/src/Board/LightChessBoard.cpp:703-718 | the phase value of both sides' material |
| LightBoard.LightChessBoard.IsEndgame | Chess.Engine/Chess.Engine.Core/src/Board/LightChessBoard.cpp:693-700 | true exactly when the total material of both sides is below 2500 or at most 12 pieces are on the board |
| LightBoard.LightChessBoard.IsPathClear | Chess.Engine/Chess.Engine.Core/src/Board/LightChessBoard.cpp:755-773 | true exactly when every square strictly between the two squares on their line is empty |
| LightBoard.LightChessBoard.CanPieceMove | Chess.Engine/Chess.Engine.Core/src/Board/LightChessBoard.cpp:517-564 | the answer is the movement rule of the piece kind for those squares, ignoring checks |
| BitboardTypes.SetBitBits | Chess.Engine/src/Chess.Engine.Core/src/Board/AttackTables.cpp:34 | setting a square turns its bit on and leaves every other bit as it was |
| BitboardTypes.PopBitBits | Chess.Engine/src/Chess.Engine.Core/src/Board/AttackTables.cpp:282 | popping a square turns its bit off and leaves every other bit as it was |
| BitboardTypes.SetSquaresFromMembers | Chess.Engine/src/Chess.Engine.Core/src/Board/AttackTables.cpp:276-287 | the squares an lsb and popBit loop visits are exactly the set bits |
| BitboardTypes.SetSquaresFromSorted | Chess.Engine/src/Chess.Engine.Core/src/Board/AttackTables.cpp:276-287 | the loop visits them in strictly increasing order |
| BitboardTypes.ZeroIffNoSquares | Chess.Engine/src/Chess.Engine.Core/src/Board/AttackTables.cpp:276-287 | a board is zero exactly when it has no set square, so `while (b)` ends once every square is visited |
| BitboardTypes.PopLsb | Chess.Engine/src/Chess.Engine.Core/src/Board/AttackTables.cpp:279-282 | after popping the lowest square, the board lists exactly the remaining squares |
| BitboardTypes.ToIndex | Chess.Engine/src/Chess.Engine.Core/src/Board/BitboardTypes.h:103-106 | a square's index lies in 0..64, and below 64 for every square but None |
| BitboardTypes.SquareName | Chess.Engine/src/Chess.Engine.Core/src/Board/BitboardTypes.h:109-119 | a square's name is two characters, a file letter a-h and a rank digit 1-8 |
| BitboardTypes.NameRoundTrip | Chess.Engine/src/Chess.Engine.Core/src/Board/BitboardTypes.h:109-119 | the FEN parser's formula reads a square's name back to the square |
| BitboardTypes.SquareAtName | Chess.Engine/src/Chess.Engine.Core/src/Board/BitboardTypes.h:90-101 | the enum runs row by row from a8: the square on a file and a row from the top is named by them |
| BitboardTypes.PieceTypeFromChar | Chess.Engine/src/Chess.Engine.Core/src/Board/BitboardTypes.h:154-172 | the index always lies in 0..11; which letter gives which index is PieceCharTable |
| BitboardTypes.PieceLetterRoundTrip | Chess.Engine/src/Chess.Engine.Core/src/Board/BitboardTypes.h:149-172 | each of the twelve letters maps to the index where the letter table holds it, and back |
| BitboardTypes.PieceCharTable | Chess.Engine/src/Chess.Engine.Core/src/Board/BitboardTypes.h:149-172 | for a piece letter the table holds the letter at its index; every other character maps to 0 |
| BitboardTypes.SideIndex | Chess.Engine/src/Chess.Engine.Core/src/Board/BitboardTypes.h:188-191 | a side's index lies in -1..2, and is not negative for any side but None |
| BitboardTypes.CastlingFlagBits | Chess.Engine/src/Chess.Engine.Core/src/Board/BitboardTypes.h:214-221 | the four castling flags are the four low bits and together make 15 |
| BitboardTypes.HasOr | Chess.Engine/src/Chess.Engine.Core/src/Board/BitboardTypes.h:223-242 | a flag is in an OR of rights exactly when it is in one of them, in an AND exactly when in both, and has() is the mask test |
| BitboardTypes.FlagsIndependent | Chess.Engine/src/Chess.Engine.Core/src/Board/BitboardTypes.h:214-242 | a flag is present in another flag only when the two are equal |
| Bitboard.SideField | Chess.Engine/src/Chess.Engine.Core/src/Board/ChessBoard.cpp:74-79 | the corrected side reader never moves the index past the end of the text |
| Bitboard.SideGuardReadsPastEnd | Chess.Engine/src/Chess.Engine.Core/src/Board/ChessBoard.cpp:75 | as written, a text that is only a placement field reads one character past its end, sets Black, and moves the index past the end |
| Bitboard.EmptyPlacementSide | Chess.Engine/src/Chess.Engine.Core/src/Board/ChessBoard.cpp:75 | on the empty board's placement alone, the side as written is Black and the intended one is none |
| Bitboard.PlaceFromBits | Chess.Engine/src/Chess.Engine.Core/src/Board/ChessBoard.cpp:42-70 | the placement loop sets a bit exactly when it was set before or a letter of that piece stands on that square |
| Bitboard.ParseFields | Chess.Engine/src/Chess.Engine.Core/src/Board/ChessBoard.cpp:30-117 | on a well-formed text, side, castling and en passant come from their own fields |
| Bitboard.ParsePieces | Chess.Engine/src/Chess.Engine.Core/src/Board/ChessBoard.cpp:42-70 | on a well-formed text, each piece board holds exactly the squares of that piece's letters |
| Bitboard.CastleLetters | Chess.Engine/src/Chess.Engine.Core/src/Board/ChessBoard.cpp:83-95 | the castling field sets a right exactly when it holds that right's letter |
| Bitboard.EnPassantSquare | Chess.Engine/src/Chess.Engine.Core/src/Board/ChessBoard.cpp:99-109 | an en-passant field naming a square gives that square, and '-' gives no square |
| Bitboard.SideOccupancyBits | Chess.Engine/src/Chess.Engine.Core/src/Board/ChessBoard.cpp:111-116 | a side's occupancy has a square exactly when one of its six piece boards has it |
| Bitboard.PlaceFrom | Chess.Engine/src/Chess.Engine.Core/src/Board/ChessBoard.cpp:42-70 | the placement scan stays within the text, skips no space, and stops on the space that ends the field |
| Bitboard.SideFieldAsWritten | Chess.Engine/src/Chess.Engine.Core/src/Board/ChessBoard.cpp:74-79 | as written, a side is always read and the index always moves on by one, also at the end of the text |
| Bitboard.CastleFrom | Chess.Engine/src/Chess.Engine.Core/src/Board/ChessBoard.cpp:83-95 | the castling scan stays within the text and stops on a space or at the end |
| Bitboard.OccupanciesOf | Chess.Engine/src/Chess.Engine.Core/src/Board/ChessBoard.cpp:111-116 | there are three occupancy boards: White, Black and Both |
| Bitboard.BothBits | Chess.Engine/src/Chess.Engine.Core/src/Board/ChessBoard.cpp:111-116 | the Both occupancy has a square exactly when either side has it |
| Bitboard.OccupancyBits | Chess.Engine/src/Chess.Engine.Core/src/Board/ChessBoard.cpp:111-116 | after parsing, Both occupancy is the union of White and Black |
| Bitboard.StartFields | Chess.Engine/src/Chess.Engine.Core/src/Board/ChessBoard.cpp:13-17 | after init White is to move, all four rights are set and there is no en-passant square |
| Bitboard.StartPieces | Chess.Engine/src/Chess.Engine.Core/src/Board/ChessBoard.cpp:13-17 | after init each piece board holds exactly that piece's squares in the standard start position |
| Bitboard.StartOccupancy | Chess.Engine/src/Chess.Engine.Core/src/Board/ChessBoard.cpp:13-17 | after init White occupies ranks 1 and 2 and Black ranks 7 and 8 |
| Bitboard.StartCounts | Chess.Engine/src/Chess.Engine.Core/src/Board/ChessBoard.cpp:13-17 | after init White and Black have 16 pieces each and the board 32 |
| Bitboard.ParseCastling | Chess.Engine/src/Chess.Engine.Core/src/Board/ChessBoard.cpp:83-95 | a well-formed text gets exactly the rights whose letters its castling field holds |
| Bitboard.ParseEnPassant | Chess.Engine/src/Chess.Engine.Core/src/Board/ChessBoard.cpp:99-109 | a well-formed text whose en-passant field names a square gets that square |
| Bitboard.ParseNoEnPassant | Chess.Engine/src/Chess.Engine.Core/src/Board/ChessBoard.cpp:99-109 | a well-formed text whose en-passant field is '-' gets no en-passant square |
| Bitboard.LimitedCastling | Chess.Engine/src/Chess.Engine.Core/src/Board/ChessBoard.cpp:83-95 | the field "Kq" grants White kingside and Black queenside castling and nothing else |
| Bitboard.EnPassantE6 | Chess.Engine/src/Chess.Engine.Core/src/Board/ChessBoard.cpp:99-109 | the field "e6" gives square 20 |
| Bitboard.Chessboard.Clear | Chess.Engine/src/Chess.Engine.Core/src/Board/ChessBoard.cpp:20-27 | every bitboard is zero, no side is to move, and there is no en-passant square and no right |
| Bitboard.Chessboard.Init | Chess.Engine/src/Chess.Engine.Core/src/Board/ChessBoard.cpp:13-17 | the board is the parse of the start position |
| Bitboard.Chessboard.ParseFEN | Chess.Engine/src/Chess.Engine.Core/src/Board/ChessBoard.cpp:30-117 | the board becomes the parse of the text: placement, the corrected side reader, castling, en passant and the occupancies |
| Bitboard.Chessboard.PlacePieces | Chess.Engine/src/Chess.Engine.Core/src/Board/ChessBoard.cpp:42-70 | the piece boards become the placement scan of the text from an empty board, and the returned index is where it stopped |
| Bitboard.Chessboard.PlaceCharacter | Chess.Engine/src/Chess.Engine.Core/src/Board/ChessBoard.cpp:44-69 | one placement character moves the scan on exactly as the placement function does |
| Bitboard.Chessboard.ReadSide | Chess.Engine/src/Chess.Engine.Core/src/Board/ChessBoard.cpp:74-79 | side and index become the corrected side field; castling and en passant are kept |
| Bitboard.Chessboard.ReadCastling | Chess.Engine/src/Chess.Engine.Core/src/Board/ChessBoard.cpp:83-95 | the rights and the index become the castling scan of the old rights; side and en passant are kept |
| Bitboard.Chessboard.ReadEnPassant | Chess.Engine/src/Chess.Engine.Core/src/Board/ChessBoard.cpp:99-109 | the en-passant square becomes the parsed field; side and rights are kept |
| Bitboard.Chessboard.UpdateOccupancies | Chess.Engine/src/Chess.Engine.Core/src/Board/ChessBoard.cpp:111-116 | the occupancy boards become the White, Black and Both unions of the piece boards |
| AttackTables.LeaperBits | Chess.Engine/src/Chess.Engine.Core/src/Board/AttackTables.cpp:60-125 | the squares of a leaper mask are exactly those its firing steps set |
| AttackTables.FileMasks | Chess.Engine/src/Chess.Engine.Core/src/Board/BitboardTypes.h:50-53 | the four file masks hold every square except the a file, the h file, the a and b files, and the g and h files |
| AttackTables.MaskKnightBits | Chess.Engine/src/Chess.Engine.Core/src/Board/AttackTables.cpp:60-91 | a knight's mask is exactly the set of squares a knight on that square attacks, with no jump wrapping round an edge |
| AttackTables.MaskKingBits | Chess.Engine/src/Chess.Engine.Core/src/Board/AttackTables.cpp:94-125 | a king's mask is exactly the set of its on-board neighbours |
| AttackTables.KnightGeometry | Chess.Engine/src/Chess.Engine.Core/src/Board/AttackTables.cpp:60-91 | a knight move, stated on the 0..63 index, is one of the eight offsets ±6, ±10, ±15, ±17 whose target lies in the files the offset can reach |
| AttackTables.KingGeometry | Chess.Engine/src/Chess.Engine.Core/src/Board/AttackTables.cpp:94-125 | a king move, stated on the index, is ±8, or ±1, ±7, ±9 onto a file next to its own |
| AttackTables.MaskPawnBits | Chess.Engine/src/Chess.Engine.Core/src/Board/AttackTables.cpp:25-57 | the corrected pawn mask holds exactly the two diagonal squares one rank ahead of the pawn |
| AttackTables.PawnGeometry | Chess.Engine/src/Chess.Engine.Core/src/Board/AttackTables.cpp:25-57 | a pawn capture, stated on the index, is -7 or -9 for White and +7 or +9 for Black, onto a file next to its own |
| AttackTables.PawnAsWrittenInverted | Chess.Engine/src/Chess.Engine.Core/src/Board/AttackTables.cpp:38 | for every side but White the written mask is White's corrected one: the side test is inverted |
| AttackTables.PawnAsWrittenWhiteTargets | Chess.Engine/src/Chess.Engine.Core/src/Board/AttackTables.cpp:47-54 | White's written mask holds the squares 7 and 9 higher, toward rank 1, under the other side's file masks |
| AttackTables.PawnAsWrittenWhiteWrong | Chess.Engine/src/Chess.Engine.Core/src/Board/AttackTables.cpp:47-54 | no square of White's written mask is a square a White pawn captures on |
| AttackTables.PawnAsWrittenBlackWrong | Chess.Engine/src/Chess.Engine.Core/src/Board/AttackTables.cpp:38-45 | no square of Black's written mask is a square a Black pawn captures on |
| AttackTables.PawnAsWrittenWraps | Chess.Engine/src/Chess.Engine.Core/src/Board/AttackTables.cpp:47-54 | a White pawn on the a file is given the h-file square of its own rank, h2 for a pawn on a2 |
| SliderAttacks.GenerateBishopAttacks | Chess.Engine/src/Chess.Engine.Core/src/Board/AttackTables.cpp:128-171 | the attacks are the squares of the four diagonal rays, each up to and including its first blocker |
| SliderAttacks.GenerateRookAttacks | Chess.Engine/src/Chess.Engine.Core/src/Board/AttackTables.cpp:174-217 | the attacks are the squares of the four line rays, each up to and including its first blocker |
| SliderAttacks.AddRay | Chess.Engine/src/Chess.Engine.Core/src/Board/AttackTables.cpp:142-168 | walking one ray adds exactly its squares up to and including the first blocker |
| SliderAttacks.AddMaskRay | Chess.Engine/src/Chess.Engine.Core/src/Board/AttackTables.cpp:228-241 | walking one mask ray adds exactly its squares short of the board edge |
| SliderAttacks.MaskBishopAttacks | Chess.Engine/src/Chess.Engine.Core/src/Board/AttackTables.cpp:220-243 | the mask is the squares of the four diagonal mask rays |
| SliderAttacks.MaskRookAttacks | Chess.Engine/src/Chess.Engine.Core/src/Board/AttackTables.cpp:246-269 | the mask is the squares of the four line mask rays |
| SliderAttacks.RookEmptyBoard | Chess.Engine/src/Chess.Engine.Core/src/Board/AttackTables.cpp:174-217 | with no blockers a rook attacks exactly the other squares of its rank and file |
| SliderAttacks.BishopEmptyBoard | Chess.Engine/src/Chess.Engine.Core/src/Board/AttackTables.cpp:128-171 | with no blockers a bishop attacks exactly the other squares of its two diagonals |
| SliderAttacks.RookMaskCells | Chess.Engine/src/Chess.Engine.Core/src/Board/AttackTables.cpp:246-269 | the rook mask is its rank and file, without its own square and without the board edges |
| SliderAttacks.BishopMaskCells | Chess.Engine/src/Chess.Engine.Core/src/Board/AttackTables.cpp:220-243 | the bishop mask is its diagonals, without its own square and without the board edges |
| SliderAttacks.RookMaskWithinAttacks | Chess.Engine/src/Chess.Engine.Core/src/Board/AttackTables.cpp:246-269 | the rook's mask lies inside its empty-board attacks |
| SliderAttacks.BishopMaskWithinAttacks | Chess.Engine/src/Chess.Engine.Core/src/Board/AttackTables.cpp:220-243 | the bishop's mask lies inside its empty-board attacks |
| SliderAttacks.RookEmptyCount | Chess.Engine/src/Chess.Engine.Core/src/Board/AttackTables.cpp:174-217 | with no blockers a rook attacks 14 squares from every square |
| SliderAttacks.BishopEmptyCount | Chess.Engine/src/Chess.Engine.Core/src/Board/AttackTables.cpp:128-171 | with no blockers a bishop attacks, on each diagonal, as many squares as the nearer edge allows |
| SliderAttacks.RookMaskCount | Chess.Engine/src/Chess.Engine.Core/src/Board/AttackTables.cpp:246-269 | along a line, the rook mask has 5 squares from an inner square and 6 from an edge square |
| SliderAttacks.RookEmptyBits | Chess.Engine/src/Chess.Engine.Core/src/Board/AttackTables.cpp:174-217 | the rook generator on an empty board sets 14 bits, whatever the square |
| SliderAttacks.BishopEmptyBits | Chess.Engine/src/Chess.Engine.Core/src/Board/AttackTables.cpp:128-171 | the bishop generator on an empty board sets as many bits as its diagonals have squares, 13 from e4 |
| SliderAttacks.RayStopsAtBlocker | Chess.Engine/src/Chess.Engine.Core/src/Board/AttackTables.cpp:142-168 | a ray with blockers is the empty-board ray cut after its first occupied square |
| SliderAttacks.SetOccupancy | Chess.Engine/src/Chess.Engine.Core/src/Board/AttackTables.cpp:272-290 | the occupancy keeps, from the lowest mask squares up, the k-th one exactly when bit k of the index is set |
| SliderAttacks.OccupancyStep | Chess.Engine/src/Chess.Engine.Core/src/Board/AttackTables.cpp:277-287 | one pass of the loop pops the lowest mask square and keeps it exactly when its index bit is set |
| SliderAttacks.OccupancyBits | Chess.Engine/src/Chess.Engine.Core/src/Board/AttackTables.cpp:272-290 | the occupancy lies within the mask, and the k-th lowest mask square is occupied exactly when bit k of the index is set |
| SliderAttacks.OccupancyInjective | Chess.Engine/src/Chess.Engine.Core/src/Board/AttackTables.cpp:272-290 | two indices that differ in a low bit give different occupancies, so every subset of the mask gets its own index |
| MoveEncoding.From | Chess.WinUI/Chess.WinUI/Models/MoveModel.cs:52 | the source square is below 64 |
| MoveEncoding.To | Chess.WinUI/Chess.WinUI/Models/MoveModel.cs:53 | the target square is below 64 |
| MoveEncoding.Flags | Chess.WinUI/Chess.WinUI/Models/MoveModel.cs:54 | the flag is below 16 |
| MoveEncoding.PackRoundTrip | Chess.WinUI/Chess.WinUI/Models/MoveModel.cs:46-54 | unpacking a packed move gives back its source, target and flag |
| MoveEncoding.UnpackRoundTrip | Chess.WinUI/Chess.WinUI/Models/MoveModel.cs:46-54 | every 16-bit word packs its own fields, so packing is a bijection |
| MoveEncoding.FlagBits | Chess.WinUI/Chess.WinUI/Models/MoveModel.cs:59-62 | the capture and promotion tests read bits 2 and 3 of the flag; castle and quiet tests match the named flags |
| MoveEncoding.CaptureFlags | Chess.WinUI/Chess.WinUI/Models/MoveModel.cs:14-30 | among the named flags, exactly Capture, EnPassant and the four promotion captures are captures, and exactly the flags from 8 up are promotions |
| MoveEncoding.PromotionOffsets | Chess.WinUI/Chess.WinUI/Models/MoveModel.cs:69 | each promotion flag, quiet or capturing, gives offset 0 for a knight, 1 bishop, 2 rook and 3 queen |
| MoveEncoding.PromotionPieceOffset | Chess.WinUI/Chess.WinUI/Models/MoveModel.cs:69 | the offset is below 4, so it always names one of the four promotion pieces |
| MoveEncoding.ValidIffNonZero | Chess.WinUI/Chess.WinUI/Models/MoveModel.cs:65-71 | a packed move is valid unless all three fields are zero, and None is invalid |
| MoveNotation.PositionStringRoundTrip | Chess.Engine/Chess.Engine/src/Moves/Notation/MoveNotation.cpp:116-134 | an on-board square's name is a letter a-h and a digit 1-8, and reads back to the square |
| MoveNotation.PositionStringInjective | Chess.Engine/Chess.Engine/src/Moves/Notation/MoveNotation.cpp:116-134 | distinct squares get distinct names |
| MoveNotation.PositionString | Chess.Engine/Chess.Engine/src/Moves/Notation/MoveNotation.cpp:116-122 | two characters; for a square on the board a file letter a-h and a rank digit 1-8 that read back as the same square |
| MoveNotation.PieceLetter | Chess.Engine/Chess.Engine/src/Moves/Notation/MoveNotation.cpp:137-149 | a piece has no letter exactly when it is a pawn or an unknown piece |
| MoveNotation.CastlingToSAN | Chess.Engine/Chess.Engine/src/Moves/Notation/MoveNotation.cpp:92-113 | empty exactly for a move that is no castle; otherwise it starts "O-O", is "O-O-O" for a queenside-only castle, ends in "+" exactly on Check, and never carries "#" |
| MoveNotation.GenerateSAN | Chess.Engine/Chess.Engine/src/Moves/Notation/MoveNotation.cpp:17-89 | a castle starts "O-O"; any move gives at least two characters; a pawn move without capture starts with its target square, and a piece with a letter starts with that letter |
| MoveNotation.CastlingText | Chess.Engine/Chess.Engine/src/Moves/Notation/MoveNotation.cpp:92-113 | castling is written "O-O", kingside first, or "O-O-O", with "+" exactly when Check is set |
| MoveNotation.PawnCaptureText | Chess.Engine/Chess.Engine/src/Moves/Notation/MoveNotation.cpp:31-44 | a pawn capture, en passant included, starts with the source file and "x" and then names the target |
| MoveNotation.EnPassantText | Chess.Engine/Chess.Engine/src/Moves/Notation/MoveNotation.cpp:46-50 | an en-passant pawn move has " e.p." right after its target |
| MoveNotation.PromotionText | Chess.Engine/Chess.Engine/src/Moves/Notation/MoveNotation.cpp:52-57 | a quiet promotion is the target, "=" and the promotion letter, then the check mark |
| MoveNotation.CheckSuffixText | Chess.Engine/Chess.Engine/src/Moves/Notation/MoveNotation.cpp:78-86 | checkmate ends the text with "#" and no "+"; Check alone ends it with "+" |
| MoveNotation.DefaultPieceText | Chess.Engine/Chess.Engine/src/Moves/Notation/MoveNotation.cpp:59-76 | a non-pawn piece with no letter gives just the target and the marks |
| MoveNotation.PieceMoveText | Chess.Engine/Chess.Engine/src/Moves/Notation/MoveNotation.cpp:59-76 | a quiet piece move is the piece letter followed by the target |
| MoveGeneration.MoveGenerator.GenerateAllMoves | Chess.Engine/src/Chess.Engine.Core/src/Moves/Generation/MoveGeneration.cpp:45-57 | the list is cleared, then holds the pawn, knight, bishop, rook, queen, king and castling moves of the side to move, in that order |
| MoveGeneration.MoveGenerator.GenerateCastlingMoves | Chess.Engine/src/Chess.Engine.Core/src/Moves/Generation/MoveGeneration.cpp:60-108 | the list gains the castling moves of the side, each exactly when its right, empty squares and safe squares hold |
| MoveGeneration.MoveGenerator.AddKingsideCastle | Chess.Engine/src/Chess.Engine.Core/src/Moves/Generation/MoveGeneration.cpp:69-97 | the list gains the kingside castle of the side when its right, empty squares and safe squares hold, and nothing otherwise |
| MoveGeneration.MoveGenerator.AddQueensideCastle | Chess.Engine/src/Chess.Engine.Core/src/Moves/Generation/MoveGeneration.cpp:78-106 | the list gains the queenside castle of the side under the same conditions for the queen's wing |
| MoveGeneration.MoveGenerator.IsSquareAttacked | Chess.Engine/src/Chess.Engine.Core/src/Moves/Generation/MoveGeneration.cpp:14-42 | the answer is whether an attacker's pawn, knight, king, bishop, rook or queen stands on a square that the matching lookup from the square itself reaches, sliders seeing the current occupancy |
| MoveGeneration.MoveGenerator.GeneratePawnMoves | Chess.Engine/src/Chess.Engine.Core/src/Moves/Generation/MoveGeneration.cpp:111-192 | the list gains the moves of every pawn of the side, lowest square first |
| MoveGeneration.MoveGenerator.AddPawnMoves | Chess.Engine/src/Chess.Engine.Core/src/Moves/Generation/MoveGeneration.cpp:120-190 | the list gains one pawn's pushes, captures and en-passant move, in that order |
| MoveGeneration.MoveGenerator.AddPushMoves | Chess.Engine/src/Chess.Engine.Core/src/Moves/Generation/MoveGeneration.cpp:135-158 | the list gains the pawn's single push, the four promotions instead on the promotion rank, and the double push |
| MoveGeneration.MoveGenerator.AddCaptureMoves | Chess.Engine/src/Chess.Engine.Core/src/Moves/Generation/MoveGeneration.cpp:160-178 | the list gains the corrected capture moves onto the set squares of the capture board, lowest first |
| MoveGeneration.MoveGenerator.AddEnPassantMove | Chess.Engine/src/Chess.Engine.Core/src/Moves/Generation/MoveGeneration.cpp:180-188 | the list gains the en-passant capture when the pawn attacks the en-passant square |
| MoveGeneration.MoveGenerator.GeneratePieceMoves | Chess.Engine/src/Chess.Engine.Core/src/Moves/Generation/MoveGeneration.cpp:195-279 | the list gains the moves of every knight, bishop, rook or queen of the side, lowest square first |
| MoveGeneration.MoveGenerator.GenerateKingMoves | Chess.Engine/src/Chess.Engine.Core/src/Moves/Generation/MoveGeneration.cpp:282-298 | the list gains the moves of the lowest king square, if there is a king |
| MoveGeneration.MoveGenerator.AddSlidingMoves | Chess.Engine/src/Chess.Engine.Core/src/Moves/Generation/MoveGeneration.cpp:301-315 | the list gains one move per attacked square, lowest first |
| MoveGeneration.BlockedPawn | Chess.Engine/src/Chess.Engine.Core/src/Moves/Generation/MoveGeneration.cpp:136-158 | a pawn whose push square is taken gets no push at all, and a free pawn always gets one |
| MoveGeneration.PushesOntoEmpty | Chess.Engine/src/Chess.Engine.Core/src/Moves/Generation/MoveGeneration.cpp:136-158 | every push lands on an empty square, one or two steps ahead |
| MoveGeneration.PromotionPushes | Chess.Engine/src/Chess.Engine.Core/src/Moves/Generation/MoveGeneration.cpp:138-144 | a free push from the promotion rank is the four promotions onto the push square, one of each |
| MoveGeneration.DoublePushRule | Chess.Engine/src/Chess.Engine.Core/src/Moves/Generation/MoveGeneration.cpp:149-156 | a double push exists exactly from the start rank, when both squares ahead are empty |
| MoveGeneration.CaptureMovesLength | Chess.Engine/src/Chess.Engine.Core/src/Moves/Generation/MoveGeneration.cpp:161-178 | the capture loop gives one move per target, or four on the promotion rank |
| MoveGeneration.CaptureMovesMembers | Chess.Engine/src/Chess.Engine.Core/src/Moves/Generation/MoveGeneration.cpp:161-178 | the capture loop's moves are exactly the captures onto the targets, promotion captures on the promotion rank |
| MoveGeneration.PromoCaptureBlocks | Chess.Engine/src/Chess.Engine.Core/src/Moves/Generation/MoveGeneration.cpp:167-173 | the promotion captures of the k-th target are the k-th block of four |
| MoveGeneration.PawnCaptureTargets | Chess.Engine/src/Chess.Engine.Core/src/Moves/Generation/MoveGeneration.cpp:161 | the capture targets are exactly the attacked squares that hold an enemy piece |
| MoveGeneration.EnPassantRule | Chess.Engine/src/Chess.Engine.Core/src/Moves/Generation/MoveGeneration.cpp:180-188 | a pawn gets exactly one en-passant move, onto the en-passant square, when there is one and the pawn attacks it |
| MoveGeneration.PawnCaptureRule | Chess.Engine/src/Chess.Engine.Core/src/Moves/Generation/MoveGeneration.cpp:161-178 | off the promotion rank, the pawn's moves hold a capture onto a square exactly when it is attacked and holds an enemy piece |
| MoveGeneration.CaptureAsWrittenOntoPush | Chess.Engine/src/Chess.Engine.Core/src/Moves/Generation/MoveGeneration.cpp:175 | as written, every ordinary capture of the loop is recorded onto the push square |
| MoveGeneration.CaptureAsWrittenLosesTarget | Chess.Engine/src/Chess.Engine.Core/src/Moves/Generation/MoveGeneration.cpp:175 | as written, a capture onto a target other than the push square is lost, where the corrected loop keeps it |
| MoveGeneration.CaptureAsWrittenExample | Chess.Engine/src/Chess.Engine.Core/src/Moves/Generation/MoveGeneration.cpp:175 | as written, White's e4 pawn taking on d5 is recorded as e4 to e5 |
| MoveGeneration.SlidingMovesLength | Chess.Engine/src/Chess.Engine.Core/src/Moves/Generation/MoveGeneration.cpp:301-315 | addSlidingMoves emits one move per target |
| MoveGeneration.SlidingMovesMembers | Chess.Engine/src/Chess.Engine.Core/src/Moves/Generation/MoveGeneration.cpp:301-315 | the moves are exactly those onto the targets: captures onto enemy squares and quiet moves elsewhere |
| MoveGeneration.PieceMoveRule | Chess.Engine/src/Chess.Engine.Core/src/Moves/Generation/MoveGeneration.cpp:195-279 | a knight, bishop, rook or queen moves exactly to the squares its attacks reach that hold no piece of its own side, capturing exactly on enemy squares |
| MoveGeneration.CastlingRule | Chess.Engine/src/Chess.Engine.Core/src/Moves/Generation/MoveGeneration.cpp:60-108 | each castling move is emitted exactly when its right, its empty squares and its safe squares hold |
| MoveGeneration.PawnMovesOrigin | Chess.Engine/src/Chess.Engine.Core/src/Moves/Generation/MoveGeneration.cpp:111-192 | every pawn move starts from a pawn of the side |
| MoveGeneration.AllMovesOrigin | Chess.Engine/src/Chess.Engine.Core/src/Moves/Generation/MoveGeneration.cpp:45-57 | every generated move starts from a square holding a piece of the side to move, or is a castling move from the king's home |
| MoveEvaluation.BasicEvaluation | Chess.Engine/Chess.Engine.Core/src/Moves/Evaluation/MoveEvaluation.cpp:15-46 | the score lies between 0 and the sum of all bonuses, and is at least the capture bonus for a capture and the checkmate bonus for a checkmate |
| MoveEvaluation.BasicMonotone | Chess.Engine/Chess.Engine.Core/src/Moves/Evaluation/MoveEvaluation.cpp:15-46 | adding a flag never lowers the score, and adding Capture raises it by the capture bonus |
| MoveEvaluation.BasicOrdering | Chess.Engine/Chess.Engine.Core/src/Moves/Evaluation/MoveEvaluation.cpp:15-46 | a capture scores more than a plain move, and a checkmate more than any move without one |
| MoveEvaluation.QueenPromotionBonus | Chess.Engine/Chess.Engine.Core/src/Moves/Evaluation/MoveEvaluation.cpp:34-42 | among promotions with the same flags, the queen scores exactly the queen bonus more than the rook |
| MoveEvaluation.PieceValueOrder | Chess.Engine/Chess.Engine.Core/src/Moves/Evaluation/MoveEvaluation.cpp:1081-1093 | values run pawn < knight < bishop < rook < queen; king and "no piece" are worth 0 |
| MoveEvaluation.Rows | Chess.Engine/Chess.Engine.Core/src/Helper/Parameters.h:248-335 | a table built from eight rows starts with the first row and ends with the last |
| MoveEvaluation.PositionValue | Chess.Engine/Chess.Engine.Core/src/Moves/Evaluation/MoveEvaluation.cpp:76-101 | 0 off the board or for no piece; White reads its piece's table as printed and Black reads it upside down; only the endgame phase changes the table; a pawn on either back rank is worth 0 |
| MoveEvaluation.PositionMirror | Chess.Engine/Chess.Engine.Core/src/Moves/Evaluation/MoveEvaluation.cpp:76-101 | a Black piece on a square scores what a White piece scores on the mirrored square |
| MoveEvaluation.PhaseSelectsTable | Chess.Engine/Chess.Engine.Core/src/Moves/Evaluation/MoveEvaluation.cpp:90-100 | only the endgame phase reads the endgame tables; every other phase scores the same |
| MoveEvaluation.TableSamples | Chess.Engine/Chess.Engine.Core/src/Helper/Parameters.h:248-335 | sample entries: a knight on e4 is 20 and in the corner -50, a Black pawn on e5 reads as a White one on e4, an endgame king on e4 is 40 |
| MoveEvaluation.PhaseFromLightValue | Chess.Engine/Chess.Engine.Core/src/Moves/Evaluation/MoveEvaluation.cpp:571-576 | the corrected cast maps the light board's 0, 1 and 2 onto a named phase |
| MoveEvaluation.LightPhaseAsWrittenMisses | Chess.Engine/Chess.Engine.Core/src/Moves/Evaluation/MoveEvaluation.cpp:571-576 | as written, no light board ever yields EndGame: an endgame position reads as the middlegame and the opening as no phase |
| MoveEvaluation.LightPhaseAgrees | Chess.Engine/Chess.Engine.Core/src/Moves/Evaluation/MoveEvaluation.cpp:571-576 | corrected, the phase is the endgame exactly at endgame material and the opening exactly at starting material |
| MoveEvaluation.PhaseOfCounts | Chess.Engine/Chess.Engine.Core/src/Moves/Evaluation/MoveEvaluation.cpp:593-600 | the phase is named; it is the endgame exactly when material and piece count are both at most the middlegame thresholds, and the opening exactly when one is above the opening threshold |
| MoveEvaluation.PhaseOfCountsMonotone | Chess.Engine/Chess.Engine.Core/src/Moves/Evaluation/MoveEvaluation.cpp:593-600 | less material and fewer pieces never give an earlier phase |
| MoveEvaluation.CountMaterial | Chess.Engine/Chess.Engine.Core/src/Moves/Evaluation/MoveEvaluation.cpp:578-591 | the loop's totals are the material and the number of pieces on the board |
| MoveEvaluation.DetermineGamePhase | Chess.Engine/Chess.Engine.Core/src/Moves/Evaluation/MoveEvaluation.cpp:568-601 | without a light board the phase is PhaseOfCounts of the board's totals |
| MoveEvaluation.BoardCountsBound | Chess.Engine/Chess.Engine.Core/src/Moves/Evaluation/MoveEvaluation.cpp:578-591 | the totals lie between nothing and every square, and each piece adds at most a queen's value |
| MoveEvaluation.EmptyBoardIsEndgame | Chess.Engine/Chess.Engine.Core/src/Moves/Evaluation/MoveEvaluation.cpp:568-601 | an empty board is in the endgame |
| MoveEvaluation.MaterialGain | Chess.Engine/Chess.Engine.Core/src/Moves/Evaluation/MoveEvaluation.cpp:104-116 | a non-capture gains nothing; a capture gains between the captured value and twice it: exactly the captured value when the capturer is worth at least as much, and twice the captured value less the capturer's when it is worth less |
| MoveEvaluation.GainBounds | Chess.Engine/Chess.Engine.Core/src/Moves/Evaluation/MoveEvaluation.cpp:104-116 | a gain is never negative, at least the captured value and at most twice it, and a cheaper capturer gains at least as much |
| MoveEvaluation.PositionalGainMirror | Chess.Engine/Chess.Engine.Core/src/Moves/Evaluation/MoveEvaluation.cpp:119-131 | a Black piece's positional gain on a move is a White piece's gain on the mirrored move |
| MoveEvaluation.EvaluationLayers | Chess.Engine/Chess.Engine.Core/src/Moves/Evaluation/MoveEvaluation.cpp:49-73 | with no board terms the advanced score is the basic score plus the positional gain, and marking a move as a capture raises the medium score by the capture bonus plus the material gain |
| MoveEvaluation.CollinearRules | Chess.Engine/Chess.Engine.Core/src/Moves/Evaluation/MoveEvaluation.cpp:1024-1036 | the queen's lines are the rook's and the bishop's, which never share a pair of squares, and collinearity is symmetric |
| MoveEvaluation.GeometryRules | Chess.Engine/Chess.Engine.Core/src/Moves/Evaluation/MoveEvaluation.cpp:926-935 | the centre squares are on the board and mirror onto each other; the king zone is every square within two steps in each direction |
| PositionalEvaluation.BalancesAntisymmetric | Chess.Engine/src/Chess.Engine.Core/src/PositionalEvaluation/PositionalEvaluation.cpp:50-54 | the material and mobility balances change sign when the sides swap, and the material balance is positive exactly when the player has more |
| PositionalEvaluation.StartMaterialEven | Chess.Engine/src/Chess.Engine.Core/src/PositionalEvaluation/PositionalEvaluation.cpp:50-54 | in the start layout neither side is ahead in material |
| PositionalEvaluation.HasPawnSupport | Chess.Engine/src/Chess.Engine.Core/src/PositionalEvaluation/PositionalEvaluation.cpp:264-290 | supported exactly when an own pawn stands on a board square diagonally behind; on the a or h file only the inner square counts, and a pawn on its own back row is never supported |
| PositionalEvaluation.SupportFrame | Chess.Engine/src/Chess.Engine.Core/src/PositionalEvaluation/PositionalEvaluation.cpp:264-290 | only the two squares behind the pawn matter: boards that agree on them give the same answer |
| PositionalEvaluation.SupportEdges | Chess.Engine/src/Chess.Engine.Core/src/PositionalEvaluation/PositionalEvaluation.cpp:264-290 | an a-file pawn can only be supported from the b-file, and a White pawn on the last row has no support |
| PositionalEvaluation.WingsPartition | Chess.Engine/src/Chess.Engine.Core/src/PositionalEvaluation/PositionalEvaluation.cpp:293-337 | the king's-wing and queen's-wing counts of a list of squares add up to its length |
| PositionalEvaluation.CountWings | Chess.Engine/src/Chess.Engine.Core/src/PositionalEvaluation/PositionalEvaluation.cpp:300-318 | the counts are the numbers of listed squares on the queen's wing and on the king's wing |
| PositionalEvaluation.MajorityScore | Chess.Engine/src/Chess.Engine.Core/src/PositionalEvaluation/PositionalEvaluation.cpp:320-336 | the score lies within two majority factors either way |
| PositionalEvaluation.MajorityCases | Chess.Engine/src/Chess.Engine.Core/src/PositionalEvaluation/PositionalEvaluation.cpp:320-336 | swapping the sides negates the score, equal wings score nothing, a majority on both wings scores the maximum, and a positive score needs a majority on some wing |
| PositionalEvaluation.EvaluatePawnMajority | Chess.Engine/src/Chess.Engine.Core/src/PositionalEvaluation/PositionalEvaluation.cpp:293-337 | the term is the majority score of both sides' pawns, wing by wing, and lies within -50..50 |
| PositionalEvaluation.PawnMajorityAntisymmetric | Chess.Engine/src/Chess.Engine.Core/src/PositionalEvaluation/PositionalEvaluation.cpp:293-337 | swapping the sides negates the pawn-majority term |
| PositionalEvaluation.ChainLength | Chess.Engine/src/Chess.Engine.Core/src/PositionalEvaluation/PositionalEvaluation.cpp:340-395 | a chain through a pawn counts the pawn itself and both diagonal runs of own pawns, at least 1 and at most 8 |
| PositionalEvaluation.Run | Chess.Engine/src/Chess.Engine.Core/src/PositionalEvaluation/PositionalEvaluation.cpp:352-386 | a diagonal run of own pawns never reaches past the board edge |
| PositionalEvaluation.ChainBonus | Chess.Engine/src/Chess.Engine.Core/src/PositionalEvaluation/PositionalEvaluation.cpp:389-390 | the bonus is never negative, positive exactly for chains of three or more, and then one chain factor per pawn beyond two |
| PositionalEvaluation.ChainsScoreBounds | Chess.Engine/src/Chess.Engine.Core/src/PositionalEvaluation/PositionalEvaluation.cpp:340-395 | the chain term is never negative and each pawn adds at most six factors |
| PositionalEvaluation.LonePawnNoBonus | Chess.Engine/src/Chess.Engine.Core/src/PositionalEvaluation/PositionalEvaluation.cpp:340-395 | a pawn with no own pawn on either forward diagonal adds nothing |
| PositionalEvaluation.CountRun | Chess.Engine/src/Chess.Engine.Core/src/PositionalEvaluation/PositionalEvaluation.cpp:352-375 | the walk of one `while (true)` loop counts exactly the run of own pawns along its diagonal |
| PositionalEvaluation.EvaluatePawnChains | Chess.Engine/src/Chess.Engine.Core/src/PositionalEvaluation/PositionalEvaluation.cpp:340-395 | the term is the chain bonus summed over the player's pawns, and is never negative |
| CpuPlayer.InsertSorted | Chess.Engine/Chess.Engine.Core/src/Player/CPUPlayer.cpp:556 | inserting into a list sorted by descending score keeps it sorted |
| CpuPlayer.SortSorted | Chess.Engine/Chess.Engine.Core/src/Player/CPUPlayer.cpp:556 | the sorted candidates are in descending score order |
| CpuPlayer.InsertByScore | Chess.Engine/Chess.Engine.Core/src/Player/CPUPlayer.cpp:556 | inserting adds exactly the new candidate: the result is a permutation of the list plus it |
| CpuPlayer.SortByScore | Chess.Engine/Chess.Engine.Core/src/Player/CPUPlayer.cpp:556 | sorting gives a permutation of the candidates |
| CpuPlayer.TopCount | Chess.Engine/Chess.Engine.Core/src/Player/CPUPlayer.cpp:558 | the number kept is the smaller of the (non-negative) count and the list length |
| CpuPlayer.ProbeTable | Chess.Engine/Chess.Engine.Core/src/Player/CPUPlayer.cpp:621-633 | a hit needs the hash and a stored depth at least the one asked for, and returns the stored score and move; a miss keeps score and move |
| CpuPlayer.StoreBounded | Chess.Engine/Chess.Engine.Core/src/Player/CPUPlayer.cpp:603-618 | the table never grows past its bound |
| CpuPlayer.ProbeAfterStore | Chess.Engine/Chess.Engine.Core/src/Player/CPUPlayer.cpp:603-633 | a stored entry is found again at any depth up to its own, with its score and move; other hashes keep their entries, unless the table was full and has been emptied |
| CpuPlayer.MateScoreAsWrittenPrefersSlowMates | Chess.Engine/Chess.Engine.Core/src/Player/CPUPlayer.cpp:296-297 | as written, a mate found nearer the root scores less for the mating side |
| CpuPlayer.MateScorePrefersQuickMates | Chess.Engine/Chess.Engine.Core/src/Player/CPUPlayer.cpp:296-297 | corrected, a quicker mate scores more for the mating side and less for the mated side, and both stay beyond every regular score |
| CpuPlayer.MinimaxTerminal | Chess.Engine/Chess.Engine.Core/src/Player/CPUPlayer.cpp:285-304 | a node without moves scores the mate score when in check and 0 otherwise; a mate counts for the maximizer exactly when the minimizer is mated |
| CpuPlayer.BestOfChildrenIsExtreme | Chess.Engine/Chess.Engine.Core/src/Player/CPUPlayer.cpp:306-343 | the maximizing value is at least every child's value and equal to one of them; the minimizing value dually |
| CpuPlayer.RootChoice | Chess.Engine/Chess.Engine.Core/src/Player/CPUPlayer.cpp:96-117 | the chosen index is a valid index, and lies among the first k moves |
| CpuPlayer.RootChoiceIsBest | Chess.Engine/Chess.Engine.Core/src/Player/CPUPlayer.cpp:96-117 | the best score is at least every score seen; once it is above -INT_MAX, the chosen move has it and no earlier move does; otherwise the first move is chosen |
| CpuPlayer.PlanFor | Chess.Engine/Chess.Engine.Core/src/Player/CPUPlayer.cpp:251-258 | Easy evaluates once above 20 moves and searches minimax at depth 3 otherwise; Medium and Hard run alpha-beta at depths 3 and 6; Random picks at random |
| CpuPlayer.WithCpuPromotion | Chess.Engine/Chess.Engine.Core/src/Player/CPUPlayer.cpp:261-265 | a promotion is always to a queen; the squares and type are kept, and other moves are unchanged |
| CpuPlayer.OrderedCoversMoves | Chess.Engine/Chess.Engine.Core/src/Player/CPUPlayer.cpp:140-149 | ordering the candidates keeps exactly the given moves |
| CpuPlayer.RootChoiceDominates | Chess.Engine/Chess.Engine.Core/src/Player/CPUPlayer.cpp:151-180 | when some move scores above -INT_MAX, the root choice scores at least as much as every move |
| CpuPlayer.SearchInOrder | Chess.Engine/Chess.Engine.Core/src/Player/CPUPlayer.cpp:151-180 | the root loop returns the first move of strictly highest search score |
| CpuPlayer.CPUPlayer.SetCPUConfiguration | Chess.Engine/Chess.Engine.Core/src/Player/CPUPlayer.cpp:18-25 | the configuration is replaced and the table kept |
| CpuPlayer.CPUPlayer.IsCPUPlayerRules | Chess.Engine/Chess.Engine.Core/src/Player/CPUPlayer.cpp:36-39 | a disabled CPU plays no colour; an enabled one plays its own colour and not the other side |
| CpuPlayer.CPUPlayer.StoreTransposition | Chess.Engine/Chess.Engine.Core/src/Player/CPUPlayer.cpp:603-618 | a full table is emptied first, then the entry is set under its hash; the table stays within its bound |
| CpuPlayer.CPUPlayer.SortCandidates | Chess.Engine/Chess.Engine.Core/src/Player/CPUPlayer.cpp:556 | the array becomes its candidates in descending score order |
| CpuPlayer.CPUPlayer.FilterTopCandidates | Chess.Engine/Chess.Engine.Core/src/Player/CPUPlayer.cpp:550-566 | a negative count throws, exactly then, before anything is sorted; otherwise the candidates are sorted in place, as a permutation, and the first min(count, n) returned, none of them beaten by a left-out candidate |
| CpuPlayer.CPUPlayer.SelectBestMove | Chess.Engine/Chess.Engine.Core/src/Player/CPUPlayer.cpp:496-504 | throws exactly for a negative count; otherwise the empty move when no candidate is kept, else the move of a candidate scoring at least every candidate |
| CpuPlayer.CPUPlayer.SelectMoveWithRandomization | Chess.Engine/Chess.Engine.Core/src/Player/CPUPlayer.cpp:507-547 | throws exactly for a negative count; otherwise the empty move when no candidate is kept, else the move of one of the top candidates, and of the best one when randomization is off |
| CpuPlayer.CPUPlayer.GetRandomMove | Chess.Engine/Chess.Engine.Core/src/Player/CPUPlayer.cpp:52-62 | the empty move for no moves; otherwise the move at the drawn index |
| CpuPlayer.CPUPlayer.GetBestEvaluatedMove | Chess.Engine/Chess.Engine.Core/src/Player/CPUPlayer.cpp:65-81 | the empty move for no moves; it throws exactly when there are moves and the count is negative; the empty move for a zero count; otherwise a given move, and the best-evaluated one when randomization is off |
| CpuPlayer.CPUPlayer.Minimax | Chess.Engine/Chess.Engine.Core/src/Player/CPUPlayer.cpp:280-344 | the result is the minimax value of the game tree, with the corrected mate score |
| CpuPlayer.CPUPlayer.GetMiniMaxMove | Chess.Engine/Chess.Engine.Core/src/Player/CPUPlayer.cpp:84-125 | the empty move for no moves; otherwise the first move of the highest value with the opponent to move |
| CpuPlayer.CPUPlayer.GetAlphaBetaMove | Chess.Engine/Chess.Engine.Core/src/Player/CPUPlayer.cpp:128-185 | the empty move for no moves; otherwise a given move whose search score is not beaten by any move |
| CpuSearch.SearchDepthRules | Chess.Engine/src/Chess.Engine.Core/src/Player/CPUPlayer.cpp:367-376 | Easy searches two plies, Medium and every other level four, and Hard the configured maximum |
| CpuSearch.NegationSafe | Chess.Engine/src/Chess.Engine.Core/src/Player/CPUPlayer.cpp:10-11 | both search bounds, and every score between them, negate into the 32-bit range |
| CpuSearch.MateScoreAsWrittenUnderflows | Chess.Engine/src/Chess.Engine.Core/src/Player/CPUPlayer.cpp:165 | as written, a mate two or more plies below the root leaves the 32-bit range, a mate one ply below is INT_MIN whose negation leaves it, and wrapped a mate six plies below a seven-ply root becomes a near win |
| CpuSearch.Wrap32 | Chess.Engine/src/Chess.Engine.Core/src/Player/CPUPlayer.cpp:165 | the wrapped value is a 32-bit integer |
| CpuSearch.MateScoreInRange | Chess.Engine/src/Chess.Engine.Core/src/Player/CPUPlayer.cpp:165 | corrected, the mate score and its negation are 32-bit at every depth of the search, and a mate nearer the root is worse for the mated side |
| CpuSearch.LowerBoundHitKeepsCallerScore | Chess.Engine/src/Chess.Engine.Core/src/Player/CPUPlayer.cpp:312-346 | as written, a LowerBound entry of score 300 is a hit for a window below 100 but returns the caller's score 0, which does not reach beta |
| CpuSearch.ProbeRules | Chess.Engine/src/Chess.Engine.Core/src/Player/CPUPlayer.cpp:312-346 | corrected, every hit returns the stored score and that score proves the cut it is used for; a miss keeps the caller's score; the best move comes from any deep-enough entry |
| CpuSearch.ProbesAgreeElsewhere | Chess.Engine/src/Chess.Engine.Core/src/Player/CPUPlayer.cpp:312-346 | the written and corrected probes differ only in the score of a LowerBound hit |
| CpuSearch.WithinThresholdMembers | Chess.Engine/src/Chess.Engine.Core/src/Player/CPUPlayer.cpp:278-298 | the kept moves are exactly the listed moves within the threshold below the best score, in list order |
| CpuSearch.FilterTopCandidates | Chess.Engine/src/Chess.Engine.Core/src/Player/CPUPlayer.cpp:278-298 | corrected to take the score gap without 32-bit wrap-around: one pass keeps, in order, the moves within the threshold below the first move, and stops at the cap |
| CpuSearch.ThresholdAsWrittenKeepsMatedMove | Chess.Engine/src/Chess.Engine.Core/src/Player/CPUPlayer.cpp:283-293 | as written, a move mated in two plies (NEG_INF+2) is kept beside a move that mates in two (INF-2), because the 32-bit gap wraps to -6; the corrected filter drops it |
| CpuSearch.ThresholdsAgreeWithoutOverflow | Chess.Engine/src/Chess.Engine.Core/src/Player/CPUPlayer.cpp:293 | whenever every gap fits in 32 bits, the filter as written keeps exactly the moves the corrected filter keeps |
| CpuSearch.TopCandidatesRules | Chess.Engine/src/Chess.Engine.Core/src/Player/CPUPlayer.cpp:278-298 | the filter keeps at most the cap, all from the list and within the threshold; with room for one it keeps the first move, and an empty list gives nothing |
| CpuSearch.FirstWithin | Chess.Engine/src/Chess.Engine.Core/src/Player/CPUPlayer.cpp:278-298 | the first move is within the threshold of its own score and heads the result |
| CpuSearch.CPUPlayer.Configure | Chess.Engine/src/Chess.Engine.Core/src/Player/CPUPlayer.cpp:23-32 | a new configuration starts from an empty table |
| CpuSearch.CPUPlayer.ClearTranspositionTable | Chess.Engine/src/Chess.Engine.Core/src/Player/CPUPlayer.cpp:352-357 | the table is empty and the configuration kept |
| CpuSearch.CPUPlayer.StoreTransposition | Chess.Engine/src/Chess.Engine.Core/src/Player/CPUPlayer.cpp:301-307 | a full table is emptied, then the entry is set under its hash |
| CpuSearch.CPUPlayer.ComputeBestMove | Chess.Engine/src/Chess.Engine.Core/src/Player/CPUPlayer.cpp:76-86 | no move gives the empty move, a single move is played without a search, and otherwise the root search runs at the difficulty's depth |
| CpuSearch.ProbeAfterStore | Chess.Engine/src/Chess.Engine.Core/src/Player/CPUPlayer.cpp:301-307 | a stored Exact entry is found again at its own depth, with its score and move, whatever the window |
| PlayerStats.PieceValueOrder | Chess-Logic/src/Player/Player.cpp:137-149 | values run pawn < knight = bishop < rook < queen within 0..9; only the king and "no piece" are worth 0 |
| PlayerStats.CaptureScoreBounds | Chess-Logic/src/Player/Player.cpp:116-123 | the score lies between 0 and nine per captured piece and grows by the value of each new capture |
| PlayerStats.CaptureScoreOrderFree | Chess-Logic/src/Player/Player.cpp:116-123 | captures worth the same score in any order: the sum is a function of the multiset of pieces |
| PlayerStats.BroadcastReaches | Chess-Logic/src/Player/Player.cpp:125-131 | a broadcast reaches every attached non-null observer once per attachment, with the same event, and no one else |
| PlayerStats.AddAsWrittenDesynchronizes | Chess-Logic/src/Player/Player.cpp:63-69 | as written, an observer mirroring the captures loses a piece on every capture: its list never grows, and after a first capture it shows none |
| PlayerStats.MirrorFollowsStack | Chess-Logic/src/Player/Player.cpp:59-113 | with the add call, the mirror follows the capture stack exactly: an add pushes, a removal pops, and score updates change nothing |
| PlayerStats.Player.SetScore | Chess-Logic/src/Player/Player.cpp:28-41 | the score becomes the value, tagged with the player's colour, and observers are not told |
| PlayerStats.Player.SetPlayerColor | Chess-Logic/src/Player/Player.cpp:50-56 | the colour is set and nothing else changes |
| PlayerStats.Player.AttachObserver | Chess-Logic/src/Player/Player.cpp:165-168 | the observer is appended to the list |
| PlayerStats.Player.DetachObserver | Chess-Logic/src/Player/Player.cpp:171-174 | every attachment of the observer goes and the others keep their order |
| PlayerStats.Player.Notify | Chess-Logic/src/Player/Player.cpp:125-131 | each non-null observer receives the event, in list order |
| PlayerStats.Player.AddCapturedPieceAsWritten | Chess-Logic/src/Player/Player.cpp:59-69 | as written, the piece is pushed and the removal call is sent |
| PlayerStats.Player.AddCapturedPiece | Chess-Logic/src/Player/Player.cpp:59-69 | corrected, the piece is pushed and the add call is sent; the score is left for updateScore |
| PlayerStats.Player.UpdateScore | Chess-Logic/src/Player/Player.cpp:116-134 | the score becomes the sum of the captured pieces' values, and observers are told |
| PlayerStats.Player.RemoveLastCapturedPiece | Chess-Logic/src/Player/Player.cpp:82-113 | with no captures nothing happens; otherwise the last capture is popped, the score recomputed, and observers told of the score and then of the removed piece |
| PlayerStats.Player.Reset | Chess-Logic/src/Player/Player.cpp:152-156 | score 0 and no captures; colour and observers stay, and no one is told |
| PlayerStats.WithoutRemoves | Chess-Logic/src/Player/Player.cpp:171-174 | after detaching, the observer is gone and every other observer is attached as often as before |
| MoveHistory.CastlingGeometryRules | Chess.Engine/src/Chess.Engine.Core/src/Moves/Execution/MoveExecution.cpp:138-149 | castling keeps king and rook on the king's row, moves the king two files towards the rook and puts the rook on the square crossed; from the e-file the rooks come from a and h and land on d and f |
| MoveHistory.MoveExecution.GetLastMove | Chess.Engine/src/Chess.Engine.Core/src/Moves/Execution/MoveExecution.cpp:204-210 | no move exactly for an empty history, otherwise the stored move with the highest number |
| MoveHistory.MoveExecution.AddMoveToHistory | Chess.Engine/src/Chess.Engine.Core/src/Moves/Execution/MoveExecution.cpp:213-223 | the move is numbered one past the size, becomes the last move, the history grows by one, and observers are told |
| MoveHistory.MoveExecution.ClearMoveHistory | Chess.Engine/src/Chess.Engine.Core/src/Moves/Execution/MoveExecution.cpp:226-235 | the history is empty and observers are told |
| MoveHistory.MoveExecution.RemoveLastMove | Chess.Engine/src/Chess.Engine.Core/src/Moves/Execution/MoveExecution.cpp:238-244 | nothing happens on an empty history; otherwise the highest-numbered move goes, and the numbering stays 1..size |
| MoveHistory.AddThenRemove | Chess.Engine/src/Chess.Engine.Core/src/Moves/Execution/MoveExecution.cpp:213-244 | adding a move and then removing the last one gives back the history before |
| GameStateMachine.AnnounceFollows | Chess.Engine/Chess.Engine/src/StateMachine/StateMachine.cpp:93-107 | an announcement follows the flow when it is empty or one transition of it |
| GameStateMachine.StartRules | Chess.Engine/Chess.Engine/src/StateMachine/StateMachine.cpp:39-55 | a game starts only from Undefined, into Init |
| GameStateMachine.SquareRules | Chess.Engine/Chess.Engine/src/StateMachine/StateMachine.cpp:67-79 | a square selection initiates the move while waiting for input, starts validation while waiting for the target, and is ignored otherwise |
| GameStateMachine.ValidationRules | Chess.Engine/Chess.Engine/src/StateMachine/StateMachine.cpp:352-369 | after validation a valid move goes to the promotion choice or straight to execution, and an invalid one back to waiting for input with the move reset |
| GameStateMachine.ExecutionRules | Chess.Engine/Chess.Engine/src/StateMachine/StateMachine.cpp:371-413 | after execution the game is over unless it goes on; then it waits for the remote on the remote's turn in a multiplayer game, and for local input otherwise |
| GameStateMachine.InitRules | Chess.Engine/Chess.Engine/src/StateMachine/StateMachine.cpp:307-314 | Init moves on, to InitSucceeded, exactly when initialised |
| GameStateMachine.TransitionsFollowFlow | Chess.Engine/Chess.Engine/src/StateMachine/StateMachine.cpp:298-425 | the switch, a square selection, a start and the corrected promotion choice either stay put or take a transition of the flow |
| GameStateMachine.PromotionAsWrittenSkipsValidation | Chess.Engine/Chess.Engine/src/StateMachine/StateMachine.cpp:82-90 | as written, choosing a promotion piece while waiting for input jumps straight to execution, skipping selection and validation |
| GameStateMachine.PromotionChoicesAgree | Chess.Engine/Chess.Engine/src/StateMachine/StateMachine.cpp:82-90 | the written and corrected promotion choices agree while a promotion is awaited, and only then |
| GameStateMachine.RemoteRules | Chess.Engine/Chess.Engine/src/StateMachine/StateMachine.cpp:110-145 | a remote promotion without a piece is held back; any other remote move is queued while waiting for the remote |
| GameStateMachine.PassFollowsFlow | Chess.Engine/Chess.Engine/src/StateMachine/StateMachine.cpp:174-295 | a pass of the loop follows the flow, provided any queued state is the execution a remote move queues |
| GameStateMachine.SinglePlayerSetUp | Chess.Engine/Chess.Engine/src/StateMachine/StateMachine.cpp:205-238 | a single-player game whose initialisation succeeds goes Init, InitSucceeded, WaitingForInput over two passes |
| GameStateMachine.StateMachine.GameStateChanged | Chess.Engine/Chess.Engine/src/StateMachine/StateMachine.cpp:93-107 | the state is set and announced |
| GameStateMachine.StateMachine.ResetCurrentPossibleMove | Chess.Engine/Chess.Engine/src/StateMachine/StateMachine.cpp:428-434 | the move's squares become (0,0) and its type Normal; the promotion piece stays |
| GameStateMachine.StateMachine.OnGameStarted | Chess.Engine/Chess.Engine/src/StateMachine/StateMachine.cpp:39-55 | from Undefined the machine starts running and moves to Init; otherwise nothing changes |
| GameStateMachine.StateMachine.OnMultiplayerGameStarted | Chess.Engine/Chess.Engine/src/StateMachine/StateMachine.cpp:58-64 | the game is marked multiplayer and started as a local game is |
| GameStateMachine.StateMachine.OnSquareSelected | Chess.Engine/Chess.Engine/src/StateMachine/StateMachine.cpp:67-79 | the square becomes the move's start while waiting for input and its end while waiting for the target, with the matching transition |
| GameStateMachine.StateMachine.OnPawnPromotionChosenAsWritten | Chess.Engine/Chess.Engine/src/StateMachine/StateMachine.cpp:82-90 | as written, the piece is recorded only while a promotion is awaited, but in every state the machine is sent to execution |
| GameStateMachine.StateMachine.OnPawnPromotionChosen | Chess.Engine/Chess.Engine/src/StateMachine/StateMachine.cpp:82-90 | corrected, only a machine awaiting the promotion records the piece and moves to execution |
| GameStateMachine.StateMachine.SwitchToNextState | Chess.Engine/Chess.Engine/src/StateMachine/StateMachine.cpp:298-425 | the transition after the current state's work; a going game also clears the per-turn flags after execution |
| GameStateMachine.StateMachine.SwitchFromValidating | Chess.Engine/Chess.Engine/src/StateMachine/StateMachine.cpp:352-369 | the switch after validation, by the validity and promotion answers |
| GameStateMachine.StateMachine.SwitchFromExecuting | Chess.Engine/Chess.Engine/src/StateMachine/StateMachine.cpp:371-413 | the end-game check, and for a going game the per-turn reset and the next waiting state |
| GameStateMachine.StateMachine.SwitchPlain | Chess.Engine/Chess.Engine/src/StateMachine/StateMachine.cpp:298-350 | outside validation and execution, Undefined goes to Init, an initialised Init to InitSucceeded, InitSucceeded to waiting for the remote on its turn in a multiplayer game and for input otherwise, MoveInitiated to WaitingForTarget, and any other state stays put |
| GameStateMachine.StateMachine.OnRemoteMoveReceived | Chess.Engine/Chess.Engine/src/StateMachine/StateMachine.cpp:110-145 | the remote move is taken and execution queued, unless it is a promotion without a piece |
| GameStateMachine.StateMachine.ReactToUndoMove | Chess.Engine/Chess.Engine/src/StateMachine/StateMachine.cpp:437-445 | the machine goes back to waiting for input |
| GameStateMachine.StateMachine.ResetGame | Chess.Engine/Chess.Engine/src/StateMachine/StateMachine.cpp:163-171 | target flags cleared, move reset, and the state set to Undefined without an announcement |
| GameStateMachine.StateMachine.HandleWaitingForInputState | Chess.Engine/Chess.Engine/src/StateMachine/StateMachine.cpp:463-471 | the move is reset and the game manager's move calculation recorded |
| GameStateMachine.StateMachine.HandleState | Chess.Engine/Chess.Engine/src/StateMachine/StateMachine.cpp:205-292 | the state's own work: Init records the initialisation answer and validation the validity answer; waiting for input resets the move and records the calculation once per turn; waiting for the target marks it; execution clears the remote flag; the promotion state awaits the piece |
| GameStateMachine.StateMachine.AnnouncePending | Chess.Engine/Chess.Engine/src/StateMachine/StateMachine.cpp:185-200 | a queued state change is announced and taken, and the queue is left empty; with none queued nothing changes |
| GameStateMachine.StateMachine.RunState | Chess.Engine/Chess.Engine/src/StateMachine/StateMachine.cpp:205-295 | a state that switches after its work moves by the switch, judged on the initialisation and validity answers just recorded; the waiting states stay put |
| GameStateMachine.StateMachine.ProcessEvent | Chess.Engine/Chess.Engine/src/StateMachine/StateMachine.cpp:174-295 | one pass of the loop: a queued change is announced, then the state's work and the switch for the states that switch |
| Discovery.FirstWithIPRules | Chess.Engine/Chess.Engine/src/Multiplayer/Discovery/DiscoveryService.cpp:110-118 | the lookup gives the first endpoint with the address, and the default endpoint when none has it |
| Discovery.FirstWithIPAppend | Chess.Engine/Chess.Engine/src/Multiplayer/Discovery/DiscoveryService.cpp:110-118 | appending an endpoint changes a lookup only when no earlier endpoint has the address |
| Discovery.EmptyEndpointAdmittedAsWritten | Chess.Engine/Chess.Engine/src/Multiplayer/Discovery/DiscoveryService.cpp:199-216 | as written, an empty endpoint is admitted though it is not usable; the corrected rule refuses it |
| Discovery.DiscoveryService.Init | Chess.Engine/Chess.Engine/src/Multiplayer/Discovery/DiscoveryService.cpp:23-55 | an empty name or address is refused with nothing changed; otherwise the settings are taken and the service is initialised exactly when the socket binds |
| Discovery.DiscoveryService.StartDiscovery | Chess.Engine/Chess.Engine/src/Multiplayer/Discovery/DiscoveryService.cpp:82-107 | an uninitialised service throws; otherwise the mode is taken and the thread starts unless the mode is None |
| Discovery.DiscoveryService.GetEndpointFromIP | Chess.Engine/Chess.Engine/src/Multiplayer/Discovery/DiscoveryService.cpp:110-118 | the first stored endpoint with the address, else the default endpoint |
| Discovery.DiscoveryService.IsKnown | Chess.Engine/Chess.Engine/src/Multiplayer/Discovery/DiscoveryService.cpp:201-205 | the scan answers whether the endpoint is already stored |
| Discovery.DiscoveryService.AddRemoteToListAsWritten | Chess.Engine/Chess.Engine/src/Multiplayer/Discovery/DiscoveryService.cpp:199-216 | as written, a new endpoint that is not the local address is appended, and announced in client mode |
| Discovery.DiscoveryService.AddRemoteToList | Chess.Engine/Chess.Engine/src/Multiplayer/Discovery/DiscoveryService.cpp:199-216 | corrected, an endpoint is appended, and announced in client mode, exactly when it is new, not local and usable |
| Discovery.AddAllInvariant | Chess.Engine/Chess.Engine/src/Multiplayer/Discovery/DiscoveryService.cpp:199-216 | admitting any run of endpoints keeps the list free of duplicates and of the local address, keeps what was there as a prefix, and adds at most one endpoint per remote, each usable and from the run |
| Discovery.AddTwice | Chess.Engine/Chess.Engine/src/Multiplayer/Discovery/DiscoveryService.cpp:201-205 | discovering an endpoint a second time leaves the list alone |
| Discovery.LookupAfterAdd | Chess.Engine/Chess.Engine/src/Multiplayer/Discovery/DiscoveryService.cpp:110-118 | after an admitted endpoint is stored, its address finds it unless an earlier endpoint has that address; the local address is never found |
| PerformanceAnalyzer.CreateDataFrame | Chess.Engine/scripts/performance_analyzer.py:65-131 | the rows are the results' rows, entry by entry; no table where the script raises |
| PerformanceAnalyzer.EntryRowsOf | Chess.Engine/scripts/performance_analyzer.py:70-129 | one row per result of the entry, in order, or failure when a result fails |
| PerformanceAnalyzer.ResultsFail | Chess.Engine/scripts/performance_analyzer.py:70-129 | once a prefix of the results fails, the whole entry fails |
| PerformanceAnalyzer.EntriesFail | Chess.Engine/scripts/performance_analyzer.py:69-129 | once a prefix of the entries fails, the whole data set fails |
| PerformanceAnalyzer.ResultRowsOneForOne | Chess.Engine/scripts/performance_analyzer.py:70-129 | an entry's rows are its results' rows, one for one, in order |
| PerformanceAnalyzer.RowCount | Chess.Engine/scripts/performance_analyzer.py:69-129 | a successful flattening has one row per result in total |
| PerformanceAnalyzer.EntriesRowsConcat | Chess.Engine/scripts/performance_analyzer.py:69-129 | the rows of two runs of entries are those of the first followed by those of the second |
| PerformanceAnalyzer.NoResultsNoRows | Chess.Engine/scripts/performance_analyzer.py:70 | an entry with no results adds no rows, whatever its other fields |
| PerformanceAnalyzer.RowCopiesEntry | Chess.Engine/scripts/performance_analyzer.py:71-78 | every row copies its entry's fields, the timestamp converted, and names its test, or "Unknown" when the result has no name |
| PerformanceAnalyzer.DurationRule | Chess.Engine/scripts/performance_analyzer.py:81-86 | with a performance block the row has the duration in microseconds, 0 when absent, and the same in seconds; without one, neither and no counter group |
| PerformanceAnalyzer.CounterGroupsRule | Chess.Engine/scripts/performance_analyzer.py:88-110 | each counter group is present exactly when its key is in the performance block, with 0 for each missing column |
| PerformanceAnalyzer.TagsRule | Chess.Engine/scripts/performance_analyzer.py:112-118 | each tag column is present exactly when the result has it, and is copied |
| PerformanceAnalyzer.ScoresRule | Chess.Engine/scripts/performance_analyzer.py:120-127 | the score columns are present exactly when the result has scores, with 0 for a missing one |
| PerformanceAnalyzer.RowFailure | Chess.Engine/scripts/performance_analyzer.py:71-127 | a row fails exactly when an entry field is missing, the timestamp does not convert, the result is not a dictionary, its performance block is not a dictionary with a numeric duration, or its scores are not a dictionary |

## Left out

- Magic-number slider tables (`initSliderAttacks`, `getBishopAttacks`, `getRookAttacks`, `getQueenAttacks`) are not modelled. Move generation takes its attack lookups as parameters (`Lookups`), and the ray generators they are built from are modelled on their own.
- `initLeaperAttacks` fills tables from the mask functions. The masks are modelled; the tables are their pointwise values.
- BitUtils is not part of this model. `setBit`, `popBit`, `getBit`, `lsb` and `countBits` are modelled from their use, and a square off the board leaves a board unchanged.
- SliderAttacks.SetOccupancy: requires at most 32 mask bits and at most the mask's own squares. The shift `1 << count` is on a 32-bit `int`, and `lsb` of an empty board is BitUtils behaviour.
- MoveGeneration: the generators require that no pawn stands on its last rank. The source would compute a push square off the board there, and a legal position never has such a pawn.
- MoveGeneration.MoveGenerator.IsSquareAttacked and `isSquareAttacked` of ChessBoard.cpp are modelled through the attack lookups, not through the tables.
- The MoveList and MoveType headers are not part of this model. Their layout follows their use in the .cpp files, and the flag values follow the managed copy in MoveModel.cs.
- LightChessBoard's move generation, hashing and `isSquareAttacked`/`isInCheck` are left out. The search takes the legal moves and the positions' values as inputs.
- The updateGameState half-move rule reads the piece on the destination after the move. A promoted pawn therefore does not reset the clock as a pawn move; capture promotions still do. This is modelled as written.
- MoveEvaluation: the threat, pin, fork, skewer, king-safety, pawn-structure, activity and defensive terms are inputs of the advanced score, not modelled. So are the evaluation caches and node counters.
- MoveEvaluation.PositionalGainMirror is stated for a piece kind and two squares, not for a whole board and move.
- PositionalEvaluation follows the newer engine's PositionalEvaluation.cpp. That file works on a LightChessBoard, which only the older engine defines, so the model runs it over LightBoard's cells.
- PositionalEvaluation: PAWN_MAJORITY_FACTOR (25) and PAWN_CHAIN_FACTOR (15) come from the older engine's Chess.Engine/Chess.Engine.Core/src/Helper/Parameters.h:237-238. The newer Parameters.h does not define them.
- The MoveEvaluation header of the older engine is not part of this model. The GamePhase values 1, 2 and 3 follow the newer engine's header.
- PositionalEvaluation: `evaluatePositionalAdvantage`, king safety, pawn structure, the tactical and best-move terms and the phase weights are left out. Their weights are floating point and their inputs come from the move evaluator.
- PositionalEvaluation.EvaluateMobility takes the legal-move counts of both sides as input.
- CpuPlayer: the older `alphaBeta` body is not modelled. The root search scores of getAlphaBetaMove are an input, and the minimax recursion is modelled on a game tree.
- CpuPlayer: move scores, random draws and the exponential weights of `selectMoveWithRandomization` are inputs. So are `simulateThinking`, the thread of `requestMoveAsync` and the observer call of `moveCalculated`.
- CpuPlayer.CPUPlayer.SortCandidates: `std::sort` is not stable. The model sorts by insertion, so among equal scores it fixes one order where the source leaves the order open.
- The newer CPUPlayer.h is stale: it declares the older player's types. The newer player's types (`ScoredMove`, `maxDepth`) follow their use in its .cpp.
- CpuSearch: `searchAlphaBeta`, `alphaBeta`, `quiescence`, `selectBestMove` and `selectWithRandomization` are left out, as are the stop token and the worker thread. The root search result is an input of ComputeBestMove.
- MoveHistory: the observers are a log of calls, and expired `weak_ptr`s are not modelled.
- `executeMove`, and the en-passant and promotion executors of MoveExecution.cpp, are left out: their piece moves are commented out in the source. So are the castling executor's piece moves; its geometry is modelled.
- Player.h is not part of this model. Player values follow Chess.Engine/Chess.Engine.Core/src/Helper/Parameters.h; the delegate callback is commented out in the source.
- GameStateMachine: the thread, the wait loop, `triggerEvent` and logging are left out. The game manager's answers are inputs, and `switchTurns` belongs to the game manager.
- Discovery: sockets, packets, JSON, `handleReceive`, `deinit` and the thread are left out. Observers are the log `found`.
- DiscoveryEndpoint.h is not part of this model. The usable-endpoint rule (an address and a non-zero port) follows DiscoveryServiceTests.cpp.
- PerformanceAnalyzer: the pandas frame is a list of rows, and column order is not modelled. `pd.to_datetime` is a parameter, and numbers are exact reals with no float rounding.
- PerformanceAnalyzer: `load_data` file I/O, the reports, the plots and the CSV export are left out.

## Findings

| source | as written | input that shows it | evidently intended | confidence | as-written member | corrected member |
|---|---|---|---|---|---|---|
| Chess.Engine/src/Chess.Engine.Core/src/Board/AttackTables.cpp:38-54 | the side test is inverted and the shifted masks are swapped, so White's pawn mask points toward rank 1 | a White pawn on a2 (48) is given h2 (55), a square of its own rank | White pawns attack the two diagonal squares toward rank 8, Black toward rank 1, with no wrap | not executed | AttackTables.PawnAsWrittenWraps | AttackTables.MaskPawnBits |
| Chess.Engine/src/Chess.Engine.Core/src/Board/ChessBoard.cpp:75 | the guard `i <= fen.size()` lets the parser read `fen[size]` | a text holding only the placement "8/8/8/8/8/8/8/8" | read the side only when a character is left | not executed | Bitboard.SideGuardReadsPastEnd | Bitboard.SideField |
| Chess.Engine/Chess.Engine.Core/src/Board/LightChessBoard.cpp:334-344 | unmaking a castle puts the king back but leaves a copy on its destination, and takes the rook back from the swapped file (d for a kingside castle, f for a queenside one) | White castles kingside from the start rows | the king's destination is emptied as well | not executed | LightBoard.AsWrittenCastlingUnmake | LightBoard.MakeUnmakeRoundTrip |
| Chess.Engine/Chess.Engine.Core/src/Board/LightChessBoard.cpp:345-351 | unmaking en passant restores the destination's old contents on the captured pawn's square | any en-passant capture, whose destination was empty | the captured pawn comes back on its square | not executed | LightBoard.AsWrittenEnPassantUnmake | LightBoard.MakeUnmakeRoundTrip |
| Chess.Engine/Chess.Engine.Core/src/Board/LightChessBoard.cpp:352-363 | unmaking a promotion puts the promoted piece back on the start square | a pawn promoting to a queen | the pawn returns to its start square | not executed | LightBoard.AsWrittenPromotionUnmake | LightBoard.MakeUnmakeRoundTrip |
| Chess.Engine/src/Chess.Engine.Core/src/Moves/Generation/MoveGeneration.cpp:175 | an ordinary pawn capture is recorded onto the push square `to` | White pawn e4 (36) taking on d5 (27) is pushed as 36 to 28 | the capture goes onto `capTo` | not executed | MoveGeneration.CaptureAsWrittenExample | MoveGeneration.PawnCaptureRule |
| Chess.Engine/Chess.Engine.Core/src/Moves/Evaluation/MoveEvaluation.cpp:571-576 | the light board's phase value 0, 1 or 2 is cast to a GamePhase whose values start at 1 | any board with at most 2500 of material reads as the middlegame | 0, 1 and 2 map to opening, middlegame and endgame | not executed | MoveEvaluation.LightPhaseAsWrittenMisses | MoveEvaluation.LightPhaseAgrees |
| Chess.Engine/Chess.Engine.Core/src/Player/CPUPlayer.cpp:297 | the mate score adds the remaining depth for the mated side, so nearer mates score worse for the winner | mates at remaining depths 1 and 3 | a quicker mate scores better for the mating side, as the comment says | not executed | CpuPlayer.MateScoreAsWrittenPrefersSlowMates | CpuPlayer.MateScorePrefersQuickMates |
| Chess.Engine/src/Chess.Engine.Core/src/Player/CPUPlayer.cpp:165 | `NEG_INF - (maxDepth - depth)` leaves the 32-bit range | a mate two plies below the root | the mate score stays within 32 bits, above NEG_INF | not executed | CpuSearch.MateScoreAsWrittenUnderflows | CpuSearch.MateScoreInRange |
| Chess.Engine/src/Chess.Engine.Core/src/Player/CPUPlayer.cpp:312-346 | a LowerBound hit returns true without setting the score | a LowerBound entry whose stored score reaches beta | a hit sets the score to the stored value | not executed | CpuSearch.LowerBoundHitKeepsCallerScore | CpuSearch.ProbeRules |
| Chess-Logic/src/Player/Player.cpp:67 | adding a captured piece tells observers a piece was removed | any first capture | observers are told a piece was added | not executed | PlayerStats.AddAsWrittenDesynchronizes | PlayerStats.MirrorFollowsStack |
| Chess.Engine/Chess.Engine/src/StateMachine/StateMachine.cpp:82-90 | a promotion choice is accepted in any state and sends the machine to execution | a promotion choice while waiting for input | only a machine awaiting a promotion takes the choice | not executed | GameStateMachine.PromotionAsWrittenSkipsValidation | GameStateMachine.TransitionsFollowFlow |
| Chess.Engine/Chess.Engine/src/Multiplayer/Discovery/DiscoveryService.cpp:199-216 | an endpoint with no address and port 0 is stored and announced | the value-initialised endpoint, in client mode | only usable endpoints are stored | not executed | Discovery.EmptyEndpointAdmittedAsWritten | Discovery.AddAllInvariant |
| Chess.Engine/src/Chess.Engine.Core/src/Player/CPUPlayer.cpp:293 | the gap `bestScore - sm.score` is taken in 32-bit `int`, so between a mating and a mated score it wraps to a small negative number | a move scored INF-2 listed before one scored NEG_INF+2 | only moves at most 50 below the best are kept | not executed | CpuSearch.ThresholdAsWrittenKeepsMatedMove | CpuSearch.FilterTopCandidates |
