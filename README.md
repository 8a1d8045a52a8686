# Pixy chess engine core, in Dafny

This project models the rules engine and the search of the Pixy console chess program:

- the piece move rules;
- the `Board` state machine;
- the brute-force legal-move generator;
- the static evaluator;
- the alpha-beta bot;
- the move-text helpers of the console front end.

The project proves properties of that model. Pieces are values (a type, a colour and the base-class `hasMoved` flag), never pointers. The board is a class whose fields the operations update in place. Its abstract value `State()` is a `BoardState` datatype, and every board operation is proved equal to a pure function on that value. The properties are proved about those functions.

Modules, in dependency order:

- `Pieces`
  - The two colours and seven piece types.
  - The `Piece` value, `clone` and `isWhite`.
  - The 8×8 grid of optional pieces.
  - The `Move` record.
- `PieceRules`
  - `isValidMove` of the pawn, knight, bishop, rook, queen and king, and `Pawn::canEnPassant`.
  - The path-scanning loops of the bishop and the rook, and the queen's rook-or-bishop delegation, as methods proved equal to the predicates.
- `BoardModel`: the functional specification of `Board`.
  - Construction, copy and assignment.
  - `setupBoard`.
  - The check test, `isInCheckAfterMove` and `hasLegalMoves`.
  - The textual position key and the repetition history.
  - `getGameResult` and `isValidCastlingMove`.
  - Every branch of `movePiece`: source checks, castling, en passant, rollback on self-check, promotion, flags, clock, history and turn.
  - `loadFEN` with `std::stoi` and the placement loop.
- `BoardLemmas`: what the board's operations promise, stated over `BoardModel`. The source's own quirks are kept as written and stated as theorems:
  - the castling branch keeps the flags, the turn, the clock and the history;
  - a refused en-passant capture duplicates the victim;
  - the position key is recorded with the mover still to move;
  - a quiet promotion advances the half-move clock.
- `Boards`: the `Board` class, with the nested loops of `board.cpp` as methods whose contracts tie the new state to `BoardModel`.
- `MoveGenerator`: `generateLegalMoves` and `countAllLegalMoves`, with:
  - soundness, completeness and order of the generated list;
  - the count positive exactly when `hasLegalMoves`.
- `Evaluation`: `pieceValue`, the piece-square tables and `evaluateIsolatedPawns`.
  - `evaluate` is written as a row-major sum of per-square terms plus the king and pawn adjustments.
  - The square scan is a method proved equal to that sum.
  - Theorems: the score's bounds, the empty board, and the colour-mirror antisymmetry.
- `Search`: plain minimax and the fail-soft alpha-beta loop of `Bot::minimax` on an abstract game tree, proved to agree:
  - exactly with the full window;
  - in the fail-soft sense for any window.
- `Bots`: the `Bot` class.
  - Its constructor builds the transposition table.
  - `minimax` and `findBestMove` are proved equal to the abstract search over the tree of board states whose children are the legal moves.
  - `evaluateBoard` is the material balance.
- `MoveText`: `parseMove`, `moveToString` and `calculateSearchDepth` of the console front end, with the parse/print round trips.

The promotion piece that `movePiece` reads from the console is a `promotion: char` parameter. It is threaded through the generator and the search. The indeterminate initial `hasMoved` of a newly created piece is a `uninit: bool` parameter of the operations that create pieces (`setupBoard`, `loadFEN`).

## Model

| member | source | states |
|---|---|---|
| Pieces.Opponent | src/core/board.cpp:248 | the turn passes to the other colour: the result differs from the input, and White maps to Black and back |
| Pieces.NewPiece | src/core/piece.h:11 | a constructed piece has the type and colour it was built with |
| Pieces.IsWhiteIffWhite | src/core/piece.h:18 | `isWhite()` holds exactly for White pieces and fails exactly for Black ones |
| Pieces.Put | src/core/board.h:24 | a write through the writable grid changes the one slot written and keeps the other 63 |
| Pieces.EmptyGrid | src/core/board.cpp:13-18 | a new board's grid is empty on every square |
| Pieces.DefaultMove | src/core/move.h:15 | the default move has all four coordinates 0 and no piece |
| PieceRules.Direction | src/core/pawn.cpp:15 | a pawn moves one row at a time, toward row 0 exactly when it is White |
| PieceRules.StartRow | src/core/pawn.cpp:16 | White pawns start on row 6 and Black pawns on row 1 |
| PieceRules.Toward | src/core/bishop.cpp:19-29 | the k-th cursor position lies between the two ends, and strictly inside when 0 < k < distance |
| PieceRules.PawnMove | src/core/pawn.cpp:14-35 | a valid pawn move goes forward; a straight move lands on an empty square; a double step starts on the start row over an empty square; a diagonal step lands on an enemy |
| PieceRules.KnightMove | src/core/knight.cpp:14-21 | a valid knight move lands on an empty or enemy square |
| PieceRules.BishopMove | src/core/bishop.cpp:14-35 | a valid bishop move is diagonal and lands on an empty or enemy square |
| PieceRules.BishopIsValidMove | src/core/bishop.cpp:14-35 | the cursor loop along the diagonal answers exactly the bishop rule |
| PieceRules.RookIsValidMove | src/core/rook.cpp:15-64 | the castling clause, then the row and column loops, answer exactly the rook rule |
| PieceRules.QueenIsValidMove | src/core/queen.cpp:16-22 | asking a temporary rook, then a temporary bishop, answers exactly the queen rule |
| PieceRules.PieceIsValidMove | src/core/piece.h:16 | the virtual call answers exactly the rule of the piece's concrete type |
| PieceRules.KnightMoveIsDistanceRootFive | src/core/knight.cpp:15-18 | a knight move is valid exactly when the squared displacement is 5 and the destination is empty or an enemy |
| PieceRules.QueenNeverKnightShaped | src/core/queen.cpp:17-21 | no knight-shaped displacement is a valid queen move |
| PieceRules.RookIsOrthogonal | src/core/rook.cpp:17-39 | without a king on the from-square, the castling clause is dead and the rook rule is exactly the plain orthogonal rule |
| PieceRules.QueenLines | src/core/queen.cpp:17-21 | a queen moves exactly along a row, a column or a diagonal, over empty squares, onto an empty or enemy square |
| PieceRules.QueenNotOntoFriend | src/core/queen.cpp:17-21 | a friendly piece on the destination makes a queen move invalid |
| PieceRules.KingCastlingShapeIgnoresPathAndRookColor | src/core/king.cpp:23-28 | the two-column king move stays valid whatever stands on the square passed over and whatever colour the corner rook has |
| PieceRules.EnPassantIsNotPawnMove | src/core/pawn.cpp:28-32 | an en-passant capture is never a plain pawn move |
| PieceRules.EnPassantIgnoresVictimSquare | src/core/pawn.cpp:37-78 | `canEnPassant` gives the same answer whatever stands on the victim's square: it reads only the last move |
| BoardModel.NoFlags | src/core/board.h:37-42 | all six castling flags start false |
| BoardModel.InitialState | src/core/board.cpp:13-18 | a new board: empty grid, White to move, the default last move, no flags, clock 0, empty history |
| BoardModel.CopyOf | src/core/board.cpp:321-329 | the copy has the grid, last move and turn of the original; its flags, clock and history are those of a new board |
| BoardModel.AssignFrom | src/core/board.cpp:331-352 | assignment takes the grid and turn of the source and keeps the target's last move, flags, clock and history |
| BoardModel.StartGrid | src/core/board.cpp:38-64 | the opening array: pawns on rows 1 and 6, back ranks on rows 0 and 7, the rest empty |
| BoardModel.FindKingFrom | src/core/board.cpp:269-279 | the king search finds a king of the colour, and the first one in row-major order; no result means no such king |
| BoardModel.Relocate | src/core/board.cpp:297-309 | a plain relocation empties the source, puts the piece on the destination and keeps every other square |
| BoardModel.ToLower | src/main_ui.cpp:193-196 | `tolower` changes only upper-case ASCII letters, to lower-case letters |
| BoardModel.ToUpper | src/core/board.cpp:206 | `toupper` changes only lower-case ASCII letters, to upper-case letters |
| BoardModel.PlacementKey | src/core/board.cpp:509-528 | the placement part of the key has one character per square scanned |
| BoardModel.KeyHeader | src/core/board.cpp:509-530 | placement plus side to move is 66 characters |
| BoardModel.Record | src/core/board.cpp:480-483 | recording a key adds one to its count and leaves every other count unchanged |
| BoardModel.PromotedPiece | src/core/board.cpp:206-219 | a promoted pawn keeps its colour and becomes a queen, rook, bishop or knight; rook, bishop and knight exactly for the upper-cased choices R, B, N |
| BoardModel.TokenPrefix | src/core/board.cpp:355-359 | one word of the stream: the longest prefix without white space |
| BoardModel.Stoi | src/core/board.cpp:360 | a parsed clock value fits the 32-bit `int` |
| BoardLemmas.RollbackRestores | src/core/board.cpp:183-195 | undoing a non-en-passant tentative move restores the grid exactly |
| BoardLemmas.MoveWithoutOwnPieceChangesNothing | src/core/board.cpp:94-103 | an empty source square, or a piece of the side not to move, is refused and nothing changes |
| BoardLemmas.RefusedMoveRestoresUnlessEnPassant | src/core/board.cpp:164-195 | every refused move leaves the whole state unchanged, except an en-passant capture refused for self-check |
| BoardLemmas.EnPassantRollbackDuplicatesVictim | src/core/board.cpp:183-195 | a refused en-passant capture puts the victim back on its square and also onto the empty destination |
| BoardLemmas.EnPassantRemovesVictim | src/core/board.cpp:105-252 | a completed en-passant capture empties the victim's square (fromRow, toCol) and the source, puts the pawn (or its promotion) on the destination and leaves every other square as it was; the move is the new last move, the position is recorded before the turn flips, the clock is reset when the mover is a pawn or a piece stood on the victim's square, the flags are updated for the mover and the turn passes |
| BoardLemmas.EnPassantGridMovesOnePiece | src/core/board.cpp:172-181 | the tentative en-passant grid holds the pawn on the destination, empties the source and the victim's square, and keeps every other square |
| BoardLemmas.CastlingKeepsBookkeeping | src/core/board.cpp:114-162 | the castling branch never changes the flags, the turn, the clock or the history |
| BoardLemmas.CastlingAccepted | src/core/board.cpp:114-162 | for a king on any column of a row and a two-column step along it, castling succeeds exactly when the king belongs to the side to move, the squares between it and the corner are empty, and the king is in check neither on its square nor on either crossed square; on success no other row changes, in the king's row only the king's column, the destination, the corner and the corner's target column (5 or 3) can change, and the king's move is recorded |
| BoardLemmas.CastlingFromColumnFour | src/core/board.cpp:114-162 | for the king on its home column 4: the same iff; on success the king is on the destination and the corner's occupant on column 5 or 3, the corner and the king's square are empty, every other square is unchanged, and the king's move is recorded |
| BoardLemmas.CastlingFromColumnThreeLosesKing | src/core/board.cpp:151-156 | a king on column 3 that castles towards column 5 is overwritten: the corner's occupant ends on column 5 and columns 3 and 7 are empty, so the row holds no king from the move |
| BoardLemmas.PlacementKeyAt | src/core/board.cpp:509-528 | character i of the key is the symbol of square (i / 8, i % 8) |
| BoardLemmas.PositionKeyTurn | src/core/board.cpp:530 | the key's 66th character is the side to move, after a space |
| BoardLemmas.OrdinaryMoveRecordsMoverKey | src/core/board.cpp:225-226 | a completed ordinary move records the new placement with the mover still to move |
| BoardLemmas.TentativeGridMovesOnePiece | src/core/board.cpp:170-181 | the tentative grid empties the source, puts the piece on the destination and keeps every other square |
| BoardLemmas.OrdinaryMoveAccepted | src/core/board.cpp:164-195 | an ordinary move is accepted exactly when the piece belongs to the side to move, its rule allows the move, and the relocated grid leaves the mover's king out of check |
| BoardLemmas.EnPassantAccepted | src/core/board.cpp:105-195 | an en-passant capture is accepted exactly when the pawn belongs to the side to move and the grid without the victim, with the pawn relocated, leaves its king out of check |
| BoardLemmas.OrdinaryMoveCommits | src/core/board.cpp:197-250 | a completed ordinary move: piece (or promotion) on the destination, source empty, other squares kept, last move set, clock reset exactly for a pawn or a capture, castling flags updated for the piece that moved, turn passed |
| BoardLemmas.QuietPromotionAdvancesClock | src/core/board.cpp:242-247 | a promotion that captures nothing advances the half-move clock |
| BoardLemmas.SquareSymbolInjective | src/core/board.cpp:511-526 | equal square symbols mean the same type and colour, or both empty |
| BoardLemmas.PositionKeyDeterminesPosition | src/core/board.cpp:506-552 | equal position keys mean the same side to move and the same piece on every square |
| BoardLemmas.GameResultPrecedence | src/core/board.cpp:498-504 | each of the five results holds exactly under its condition, in the source's order: checkmate, stalemate, fifty moves, repetition, ongoing |
| BoardLemmas.KingCannotReachOccupiedFarSquare | src/core/king.cpp:15-31 | a king never attacks a square that is neither adjacent nor empty |
| BoardLemmas.SeparatedKingsAreNeverCheck | src/core/board.cpp:266-295 | with only two separated kings neither side is in check, so there is no checkmate |
| BoardLemmas.PieceOfLetterColour | src/core/board.cpp:376-387 | a FEN letter makes a piece exactly for the six type letters, White exactly when upper case |
| BoardLemmas.PlacementKeepsSquaresBehind | src/core/board.cpp:368-391 | the placement loop never writes a square before its cursor |
| BoardLemmas.PlacementPutsLetterAtCursor | src/core/board.cpp:368-391 | a letter at the cursor ends up on the cursor's square |
| BoardLemmas.CastlingMoveNeedsUnmovedKing | src/core/board.cpp:433-448 | `isValidCastlingMove` accepts only the king's standard castling moves from column 4, and only with an unmoved king |
| Boards.FindKingFirst | src/core/board.cpp:269-279 | a king with no earlier king of its colour is the one the search finds |
| Boards.FindKingNone | src/core/board.cpp:281 | no king of the colour means the search finds none |
| Boards.Board.constructor | src/core/board.cpp:13-18 | the new board's state is the initial state |
| Boards.Board.Copy | src/core/board.cpp:321-329 | the copy's state is `CopyOf` the original's |
| Boards.Board.ClearGrid | src/core/board.cpp:362-366 | every square becomes empty, nothing else changes |
| Boards.Board.CopyGridFrom | src/core/board.cpp:323-327 | the grid becomes the other board's grid, nothing else changes |
| Boards.Board.Assign | src/core/board.cpp:331-352 | the new state is `AssignFrom` of the old states |
| Boards.BackRankWrites | src/core/board.cpp:50-63 | the eight back-rank writes leave R N B Q K B N R of the colour on that row and every other row as it was |
| Boards.Board.PlaceBackRank | src/core/board.cpp:50-63 | one row gets R N B Q K B N R of the colour; the other rows are kept |
| Boards.Board.SetupBoard | src/core/board.cpp:38-64 | the grid becomes the opening array, nothing else changes |
| Boards.Board.WriteSquare | src/core/board.h:24 | a write through the writable grid changes that one square and nothing else |
| Boards.Board.SetCurrentTurn | src/core/board.h:23 | the turn changes and nothing else |
| Boards.Board.FindKingSquare | src/core/board.cpp:269-279 | the king loop finds the first king of the colour in row-major order |
| Boards.Board.ScanAttackers | src/core/board.cpp:283-294 | the attacker loop answers exactly whether some opposing piece may move onto the king's square |
| Boards.Board.ScanAttackerRow | src/core/board.cpp:284-291 | one pass of the column loop answers exactly whether some square of that row holds an opposing piece that may move onto the king's square |
| Boards.Board.AttackerAt | src/core/board.cpp:285-290 | one square answers exactly whether it holds a piece of the other colour whose rule allows the move onto the king's square |
| Boards.Board.IsInCheck | src/core/board.cpp:266-295 | answers exactly the check predicate |
| Boards.Board.IsInCheckAfterMove | src/core/board.cpp:297-309 | answers the check predicate after a plain relocation on a copy |
| Boards.Board.HasLegalMoves | src/core/board.cpp:458-478 | answers exactly whether some own piece has a relocation that its rule allows and that leaves no check |
| Boards.Board.IsCheckmate | src/core/board.cpp:450-452 | in check and without a legal relocation |
| Boards.Board.IsStalemate | src/core/board.cpp:454-456 | not in check and without a legal relocation |
| Boards.Board.PlacementKeyScan | src/core/board.cpp:509-528 | the row-major scan builds the placement key |
| Boards.Board.AppendCastlingMarks | src/core/board.cpp:532-535 | appends exactly the marks of the castlings still available |
| Boards.Board.AppendEnPassant | src/core/board.cpp:537-548 | appends the en-passant square after a double pawn step, else nothing |
| Boards.Board.GeneratePositionKey | src/core/board.cpp:506-552 | the key is the position key of the state |
| Boards.Board.RecordPosition | src/core/board.cpp:480-483 | the current key's count rises by one, nothing else changes |
| Boards.Board.IsThreefoldRepetition | src/core/board.cpp:485-489 | the current key has been recorded at least three times |
| Boards.Board.ResetPositionHistory | src/core/board.cpp:491-495 | the history holds the current key once and nothing else |
| Boards.Board.GetGameResult | src/core/board.cpp:498-504 | the result is the classification whose precedence `GameResultPrecedence` proves |
| Boards.Board.HasKingMoved | src/core/board.cpp:404-406 | the king flag of the colour |
| Boards.Board.HasRookMoved | src/core/board.cpp:408-414 | the rook flag of the colour and side |
| Boards.Board.SetKingMoved | src/core/board.cpp:415-421 | that colour's king flag becomes true, nothing else changes |
| Boards.Board.SetRookMoved | src/core/board.cpp:423-431 | that rook's flag becomes true, nothing else changes |
| Boards.Board.IsValidCastlingMove | src/core/board.cpp:433-448 | answers the flag test whose meaning `CastlingMoveNeedsUnmovedKing` states |
| Boards.Board.PlacePieces | src/core/board.cpp:368-391 | the grid becomes the placement of the FEN field, nothing else changes |
| Boards.Board.LoadFEN | src/core/board.cpp:354-402 | fails with the board unchanged exactly when the clock field is not a number; otherwise the new clock, grid, turn and flags, with the last move and history kept |
| Boards.Board.SetFlagsFromCastling | src/core/board.cpp:395-400 | the flags become those the castling field gives, nothing else changes |
| Boards.Board.CastlePathClear | src/core/board.cpp:121-125 | the loop answers whether every square between the king and the corner is empty |
| Boards.Board.TrialInCheck | src/core/board.cpp:133-149 | one castling trial answers the check test with the king on the crossed square, and restores the board |
| Boards.Board.Castle | src/core/board.cpp:114-162 | the castling branch produces exactly the castling outcome |
| Boards.Board.FinishCastle | src/core/board.cpp:151-158 | king to the destination, the corner's occupant to column 5 or 3, last move set |
| Boards.Board.UpdateFlags | src/core/board.cpp:227-240 | the mover's king flag, or a corner rook's flag, is set; nothing else changes |
| Boards.Board.Commit | src/core/board.cpp:197-250 | the commit of an ordinary move produces exactly its specified outcome |
| Boards.Board.HandOver | src/core/board.cpp:225-248 | record, flags, clock and turn change as specified |
| Boards.Board.PlayOrdinary | src/core/board.cpp:164-250 | the rule check, the tentative move, the rollback or the commit produce exactly the ordinary outcome |
| Boards.Board.Tentative | src/core/board.cpp:170-181 | the grid becomes the tentative grid, nothing else changes |
| Boards.Board.Rollback | src/core/board.cpp:183-195 | the grid becomes the rolled-back grid, nothing else changes |
| Boards.Board.MovePiece | src/core/board.cpp:92-251 | the result and the new state are exactly the specified outcome of `movePiece`, whose properties `BoardLemmas` proves |
| MoveGenerator.ScanSound | src/core/move_generator.cpp:50-64 | every move the destination scan lists passes the filter, starts at the scanned square and lies before the scan's bound |
| MoveGenerator.ScanComplete | src/core/move_generator.cpp:50-64 | every destination before the bound that passes the filter is listed |
| MoveGenerator.ScanAllSound | src/core/move_generator.cpp:44-67 | every move the whole scan lists passes the filter |
| MoveGenerator.ScanAllComplete | src/core/move_generator.cpp:44-67 | every candidate that passes the filter is listed |
| MoveGenerator.ScanOrdered | src/core/move_generator.cpp:50-51 | one source's moves are in increasing destination order |
| MoveGenerator.ScanAllOrdered | src/core/move_generator.cpp:44-51 | all moves are in increasing (source, destination) order |
| MoveGenerator.ScanOfRefusedSource | src/core/move_generator.cpp:46-48 | a source that the filter refuses outright contributes no move |
| MoveGenerator.LegalMovesSound | src/core/move_generator.cpp:46-61 | every listed move is on the board with distinct squares, starts from a piece of the colour that it records, is allowed by that piece's rule, and succeeds in `movePiece` on a copy that is then not in check |
| MoveGenerator.LegalMovesComplete | src/core/move_generator.cpp:41-70 | every candidate passing those tests is listed |
| MoveGenerator.LegalMovesOrdered | src/core/move_generator.cpp:44-51 | the list is in row-major source order, then destination order, with no repeats |
| MoveGenerator.LegalMovesOnlyForSideToMove | src/core/move_generator.cpp:57 | for the side not to move the list is empty |
| MoveGenerator.LegalMovesHaveNoEnPassant | src/core/move_generator.cpp:54 | no listed move is an en-passant capture |
| MoveGenerator.ScanDestinations | src/core/move_generator.cpp:50-64 | the inner loops list exactly the destination scan of one source |
| MoveGenerator.ScanStep | src/core/move_generator.cpp:50-51 | visiting the next destination in row-major order appends its move exactly when the filter accepts it |
| MoveGenerator.ScanAllStep | src/core/move_generator.cpp:44-45 | visiting the next source in row-major order appends exactly that source's destination scan |
| MoveGenerator.ScanDestinationRow | src/core/move_generator.cpp:51-64 | one pass of the destination-column loop extends the scan by exactly the destinations on that row |
| MoveGenerator.VisitDestination | src/core/move_generator.cpp:52-63 | one destination extends the scan by one square: its move is appended exactly when the filter keeps it, and never for the source square itself |
| MoveGenerator.ScanSourceRow | src/core/move_generator.cpp:45-66 | one pass of the source-column loop extends the whole scan by exactly the sources on that row |
| MoveGenerator.VisitSource | src/core/move_generator.cpp:46-65 | one source extends the whole scan by one square: nothing when it holds no piece of the colour, else its destination scan |
| MoveGenerator.TryCandidate | src/core/move_generator.cpp:52-62 | one candidate is kept exactly when it passes the generator's filter |
| MoveGenerator.GenerateLegalMoves | src/core/move_generator.cpp:41-70 | returns exactly the specified list; the input board is only read |
| MoveGenerator.RelocationCountPositive | src/core/move_generator.cpp:5-39 | the count is positive exactly when `hasLegalMoves` holds for the side to move |
| MoveGenerator.CountDestinations | src/core/move_generator.cpp:17-34 | the inner loops count exactly the accepted relocations of one source |
| MoveGenerator.CountDestinationRow | src/core/move_generator.cpp:18-33 | one pass of the destination-column loop adds exactly the accepted relocations on that row |
| MoveGenerator.CountDestination | src/core/move_generator.cpp:19-32 | one destination adds one exactly when the relocation filter accepts it |
| MoveGenerator.CountSourceRow | src/core/move_generator.cpp:12-35 | one pass of the source-column loop adds exactly the accepted relocations from that row's sources |
| MoveGenerator.CountSource | src/core/move_generator.cpp:13-34 | one source adds nothing when it holds no piece of the side to move, else its count of accepted relocations |
| MoveGenerator.RelocatedCopyInCheck | src/core/move_generator.cpp:20-26 | the copy, the two writes and the check test answer the check predicate after a plain relocation |
| MoveGenerator.CountAllLegalMoves | src/core/move_generator.cpp:5-39 | returns exactly the relocation count |
| Evaluation.PieceValue | src/ai/evaluate.cpp:72-82 | zero exactly for NONE, at least 100 for a piece, at most 900 for anything but a king |
| Evaluation.PieceSquareMirror | src/ai/evaluate.cpp:84-97 | a Black piece reads the entry of a White piece on the mirrored row |
| Evaluation.SumReflected | src/ai/evaluate.cpp:124-200 | summing a row-reflected term gives the same total, or its negation |
| Evaluation.LastKingTo | src/ai/evaluate.cpp:186-195 | the tracked king square is a king of the colour already scanned, or (-1, -1) exactly when there is none |
| Evaluation.CastledToMeaning | src/ai/evaluate.cpp:186-195 | the castled flag after k squares holds exactly when a king of the colour stands on column 6 or 2 among them |
| Evaluation.CastledMeaning | src/ai/evaluate.cpp:186-195 | after the whole scan, castled means some king of the colour on column 6 or 2 |
| Evaluation.PawnFilesTo | src/ai/evaluate.cpp:101-109 | the file marks are always eight |
| Evaluation.PawnFilesToMeaning | src/ai/evaluate.cpp:101-109 | a file is marked after k squares exactly when a pawn of the colour stands on it among them |
| Evaluation.PawnFilesMeaning | src/ai/evaluate.cpp:101-109 | a file is marked exactly when some pawn of the colour stands on it |
| Evaluation.IsolatedPenaltyRange | src/ai/evaluate.cpp:100-122 | the isolated-pawn penalty is a multiple of 15 between 0 and 60 |
| Evaluation.PieceSquareBounded | src/ai/evaluate.cpp:6-97 | every table entry read lies in [-50, 50] |
| Evaluation.SquareTermBounded | src/ai/evaluate.cpp:140-209 | one square contributes at most a bounded amount |
| Evaluation.ScoreBounded | src/ai/evaluate.cpp:124-243 | the score stays within ±1,400,000, far inside the 32-bit `int` |
| Evaluation.EmptyBoardScoresZero | src/ai/evaluate.cpp:124-243 | an empty board scores 0 |
| Evaluation.Recolor | src/ai/evaluate.cpp:124-243 | recolouring keeps occupancy and type and swaps the colour |
| Evaluation.Mirror | src/ai/evaluate.cpp:124-243 | the mirrored grid shows the recoloured occupant of row 7 - r on row r |
| Evaluation.PositionalMirror | src/ai/evaluate.cpp:140-184 | a recoloured piece on the mirrored square has the same positional value and development |
| Evaluation.SquareTermMirror | src/ai/evaluate.cpp:140-209 | a recoloured occupant on the mirrored square contributes the negated term |
| Evaluation.MirrorPieceCount | src/ai/evaluate.cpp:153-158 | mirroring keeps the piece count |
| Evaluation.MirrorSquareSum | src/ai/evaluate.cpp:140-209 | mirroring negates the sum of the square terms |
| Evaluation.MirrorPawnFiles | src/ai/evaluate.cpp:101-109 | the mirror's pawn files of the other colour are the original's |
| Evaluation.MirrorQueens | src/ai/evaluate.cpp:218-228 | a queen is present in the mirror exactly when one is present in the original |
| Evaluation.MirrorCastled | src/ai/evaluate.cpp:186-195 | the castled flag of the other colour in the mirror is the original's |
| Evaluation.LastKingIsTheKing | src/ai/evaluate.cpp:186-195 | with one king of the colour, the tracked square is that king's |
| Evaluation.MirrorLastKing | src/ai/evaluate.cpp:186-195 | the tracked king of the other colour in the mirror is on the mirrored square |
| Evaluation.MirrorKingSafety | src/ai/evaluate.cpp:218-240 | mirroring negates the king-safety adjustment |
| Evaluation.MirrorNegatesScore | src/ai/evaluate.cpp:124-243 | with at most one king per colour, swapping colours and mirroring the rows negates the score |
| Evaluation.CountPieces | src/ai/evaluate.cpp:153-158 | the loop counts exactly the occupied squares |
| Evaluation.EvaluateIsolatedPawns | src/ai/evaluate.cpp:100-122 | the loops compute exactly the isolated-pawn penalty |
| Evaluation.QueensPresent | src/ai/evaluate.cpp:218-228 | the scan finds a queen exactly when one of either colour is on the board |
| Evaluation.MaterialAndPosition | src/ai/evaluate.cpp:140-166 | material value plus positional value of the piece on its square |
| Evaluation.CountCenter | src/ai/evaluate.cpp:169-174 | changes only the centre counters, adding ±15 to the weighed bonus exactly for a centre square |
| Evaluation.CountDevelopment | src/ai/evaluate.cpp:177-184 | changes only the development counters, adding ±10 exactly for a developed knight or bishop |
| Evaluation.TrackKing | src/ai/evaluate.cpp:186-195 | changes only the king bookkeeping: the king's square is recorded and the castled flag set on column 6 or 2 |
| Evaluation.ScanSquare | src/ai/evaluate.cpp:137-200 | one square of the scan keeps the tally equal to the specification sum so far |
| Evaluation.NoneSeen | src/ai/evaluate.cpp:125-133 | the tally starts at zero, with no king seen and no castling |
| Evaluation.ScanStart | src/ai/evaluate.cpp:125-133 | the starting tally is the empty sum |
| Evaluation.ScanComplete | src/ai/evaluate.cpp:197-209 | after all squares the tally holds the whole square sum and the final king bookkeeping |
| Evaluation.KingSafetyAdjustment | src/ai/evaluate.cpp:218-240 | computes exactly the king-safety term |
| Evaluation.ScanSquares | src/ai/evaluate.cpp:135-202 | both loops leave the tally of all 64 squares |
| Evaluation.Evaluate | src/ai/evaluate.cpp:124-243 | returns exactly the specified score, whose bounds and mirror antisymmetry are proved |
| Search.MaxLoopStep | src/ai/bot.cpp:41-51 | one turn of the maximising loop either cuts off with the loop's value or continues toward it |
| Search.MinLoopStep | src/ai/bot.cpp:52-63 | one turn of the minimising loop either cuts off with the loop's value or continues toward it |
| Search.MinimaxFits | src/ai/bot.cpp:33-64 | with leaf values in `int`, the minimax value fits in `int` |
| Search.BestMonotone | src/ai/bot.cpp:41-63 | considering more children never lowers the maximum or raises the minimum |
| Search.BestIsMaximum | src/ai/bot.cpp:41-51 | the maximising value bounds every child and is attained by one |
| Search.AlphaBetaFailSoft | src/ai/bot.cpp:33-64 | for any window inside `int`, the pruning search is exact inside the window, and outside it lies on the same side as the true value |
| Search.MaxLoopFailSoft | src/ai/bot.cpp:41-51 | the maximising loop keeps the fail-soft guarantee |
| Search.MinLoopFailSoft | src/ai/bot.cpp:52-63 | the minimising loop keeps the fail-soft guarantee |
| Search.FullWindowIsMinimax | src/ai/bot.cpp:33-64 | with the full `int` window the pruning search returns exactly the minimax value |
| Bots.Children | src/ai/bot.cpp:41-63 | one child position per legal move, in list order, each obtained by `movePiece` on a copy |
| Bots.BoardValuesFit | src/ai/bot.cpp:34-39 | every static value the search reads fits in `int` |
| Bots.RootValues | src/ai/bot.cpp:20-31 | one root value per legal move |
| Bots.FirstBest | src/ai/bot.cpp:20-31 | the chosen index holds the largest value, and every earlier value is strictly smaller |
| Bots.FirstBestUnique | src/ai/bot.cpp:20-31 | an index that is the first largest is the chosen one |
| Bots.RootChoiceIsMinimax | src/ai/bot.cpp:9-32 | the chosen move's value is the minimax value of the root |
| Bots.EmptyEntry | src/ai/bot.h:43-48 | a new table entry is zeroed and invalid |
| Bots.MaterialMirror | src/ai/bot.cpp:66-90 | swapping the colours and mirroring the rows negates the material balance |
| Bots.MaterialOnlyKings | src/ai/bot.cpp:66-90 | with only one king of each colour the material is balanced |
| Bots.Bot.constructor | src/ai/bot.h:9-15 | the table holds `TT_SIZE` entries, each invalid, and both counters are 0 |
| Bots.Bot.Minimax | src/ai/bot.cpp:33-64 | returns exactly the alpha-beta value of the board's game tree, so the fail-soft and full-window theorems apply; the board is only read |
| Bots.Bot.SearchChild | src/ai/bot.cpp:44-46 | the search of one child on a fresh copy is the tree's child search |
| Bots.Bot.MaxTurn | src/ai/bot.cpp:44-49 | one turn of the maximising loop either cuts off with the loop's value or continues toward it |
| Bots.Bot.MaxLoopSearch | src/ai/bot.cpp:41-51 | the maximising loop returns exactly the specified loop value |
| Bots.Bot.MinTurn | src/ai/bot.cpp:55-60 | one turn of the minimising loop either cuts off with the loop's value or continues toward it |
| Bots.Bot.MinLoopSearch | src/ai/bot.cpp:52-63 | the minimising loop returns exactly the specified loop value |
| Bots.Bot.RootSearch | src/ai/bot.cpp:22-25 | the full-window search of one root move is that move's root value, inside `int` |
| Bots.Bot.FindBestMove | src/ai/bot.cpp:9-32 | no move exactly when there are no legal moves; otherwise the first legal move whose value is largest |
| Bots.Bot.EvaluateBoard | src/ai/bot.cpp:66-90 | returns exactly the material balance |
| MoveText.Lowered | src/main_ui.cpp:193-196 | the same length, each character passed through `tolower` |
| MoveText.ParseMove | src/main_ui.cpp:190-209 | success only for five characters with a space in the middle, and then all four outputs lie on the board |
| MoveText.FileChar | src/main_ui.cpp:181-183 | a column is written as a file letter a–h |
| MoveText.RankChar | src/main_ui.cpp:182-184 | a row is written as a rank digit 1–8 |
| MoveText.MoveToString | src/main_ui.cpp:180-188 | five characters: file, rank, space, file, rank |
| MoveText.ParseMoveToString | src/main_ui.cpp:180-209 | reading back what `moveToString` wrote gives the move's four coordinates |
| MoveText.MoveToStringParsed | src/main_ui.cpp:180-209 | writing out what `parseMove` read gives the input back, with its letters lowered |
| MoveText.ParseMoveIgnoresCase | src/main_ui.cpp:193-196 | lowering the input first does not change the parse |
| MoveText.ParseMoveAccepts | src/main_ui.cpp:190-209 | an input is accepted exactly when, once lowered, it is the text of some on-board move |
| MoveText.DepthForPieces | src/main_ui.cpp:167-178 | the depth is between 3 and 5 |
| MoveText.DepthForPiecesAntitone | src/main_ui.cpp:167-178 | fewer pieces never give a shallower search |
| MoveText.CalculateSearchDepth | src/main_ui.cpp:167-178 | depth 3 exactly above 28 pieces, 5 exactly at 16 or fewer, otherwise 4 |
| MoveText.StartSearchDepth | src/main_ui.cpp:167-178 | the opening position holds 32 pieces, so the first search is 3 plies deep |
| MoveText.SearchDepthMirror | src/main_ui.cpp:167-178 | swapping the colours and mirroring the board leaves the depth unchanged |

## Left out

- Console I/O: `printBoard`, every diagnostic `std::cout`, and the interactive promotion prompt. The promotion choice is the `promotion` parameter.
- Heap management: `new`/`delete`, destructors, and the pointer aliasing of `setupBoard`, where one object stands on two squares. Pieces are values, so the shared object and the read of the deleted pawn's colour during promotion are modelled as what they evidently read: a piece of that type and colour.
- `Move::pieceMoved` is a raw pointer. The model keeps a snapshot of the piece's type, colour and flag. A copied board's last move therefore does not alias the original's piece.
- The base `hasMoved` flag is never initialised. Its indeterminate value is the `uninit` parameter of the operations that create pieces. Promoted pieces get `false`, which only a king would ever read.
- The trivial getters `getPiece`, `getBoard`, `getLastMove`, `getCurrentTurn` and `getColor` are plain field reads of `Board` and `Piece`, with no members of their own.
- PieceRules.BishopIsValidMove, PieceRules.RookIsValidMove, PieceRules.QueenIsValidMove and PieceRules.PieceIsValidMove require distinct squares. With `from == to` the source's sliding loops step off the board. Both callers do reach that case: `countAllLegalMoves` asks every own piece about its own square (`src/core/move_generator.cpp:17-19` has no skip), and `handleHumanMove` hands `movePiece` whatever `parseMove` accepts, such as "e2 e2" (`src/main_ui.cpp:127-128`), which then asks the piece rule (`src/core/board.cpp:164`). Those calls are excluded in the model, as the lines on Boards.Board.MovePiece and MoveGenerator.CountAllLegalMoves below say.
- Boards.Board.MovePiece requires on-board, distinct squares. The source has no bounds check and indexes the array with whatever it is given.
- Boards.Board.LoadFEN requires that every placement write of a numeric-clock FEN lands on the board. The source writes out of bounds otherwise. The checks on the other fields are the source's own.
- BoardModel.Placement: the FEN string is a sequence of characters, not of bytes. In the source a non-ASCII character is several `char`s of UTF-8, so it advances the column cursor once per byte (`src/core/board.cpp:368-391`), and `std::isdigit` on a negative `char` is undefined behaviour. The model advances the cursor once per character; that byte-level behaviour is not modelled.
- MoveGenerator.CountAllLegalMoves: unlike the source, it does not count a piece "moving" onto its own square, because the rules are only defined for distinct squares. The property stated is the one that matters to its caller: the count is positive exactly when `hasLegalMoves` holds.
- BoardModel.InitialState, BoardModel.CopyOf: the zero clock and the empty position history of a new board and of a copy are defaults of this model. Neither constructor in `src/core/board.cpp` (lines 13-18 and 321-329) sets these fields, and `src/core/board.h` does not declare them, so their declarations and initial values are not part of this model. The half-move clock is also an unbounded integer: the source's `++halfmoveClock` (lines 242-247) on a 32-bit `int` would overflow after a FEN clock near `INT_MAX`, and that wrap-around is not modelled.
- Scores are mathematical integers. `ScoreBounded` and `BoardValuesFit` prove they stay inside the 32-bit range, so no overflow of the source's `int` arises. `INT_MIN` and `INT_MAX` are the constants `Search.IntMin` and `Search.IntMax`.
- Bots.Bot.FindBestMove returns `None` where the source throws `std::runtime_error("No legal moves available")`.
- Boards.Board.LoadFEN returns `false` with the board unchanged where `std::stoi` throws.
- Bots.Bot.constructor: the table is created with every entry value-initialised, and the source's redundant loop that sets each `isValid` to false again is kept as a loop over the table. `findBestMove` and `minimax` never read or write the table or the counters, and have no `modifies` clause.
- The members of `src/ai/bot.h` that have no body: quiescence, move ordering, opening bonuses, hashing and the table probes, iterative deepening and the evaluation helpers. `src/ai/minimax.h` is declarations only.
- MoveText.MoveToString requires on-board coordinates. For other values the source's `'a' + col` char arithmetic yields arbitrary characters, and no caller passes them.
- `tolower` and `toupper` are the "C" locale versions: only ASCII letters change.
- The rest of `src/main_ui.cpp` (game loop, menus, settings), `src/main.cpp` and the terminal UI in `src/ui/` are console front ends and are not part of this model.
