# Chess move generation, modelled in Dafny

This project models the move generator of a chess tutor's front-end engine
(`frontend/src/engine`):

- the coordinate utilities that convert algebraic squares such as `"e4"` to
  and from file and rank indices;
- the board, a sparse map from square to piece record, with the kings and
  queens it is seeded with;
- the shared sliding walker of the abstract piece;
- the rook, bishop, queen, knight, king and pawn generators, including
  castling and the king's separate attack loop.

Every generator is a `method` that follows the source's loops step by step.
Each is proved equal to a specification function. The rules of chess the
code promises are proved as lemmas about those functions: rays stop at the
first piece, only enemy pieces are captured, the queen moves like rook and
bishop together, pawns only go forward, and castling needs empty and
unattacked paths. The source's own unit tests are restated as lemmas about
concrete boards.

Layout, one module per file:

| file | module | models |
|---|---|---|
| `types.dfy` | `Types` | the piece record, colors, piece kinds, squares |
| `utils.dfy` | `Utils` | `utils.ts` |
| `board.dfy` | `Boards` | `Board.ts` (the class `Boards.Board`) |
| `stepping.dfy` | `Stepping` | the one-step-per-offset loop that the knight and the king's attack squares both write out, as the method `Stepping.StepAll` |
| `piece.dfy` | `PieceWalk` | `Piece.ts` |
| `rook.dfy`, `bishop.dfy`, `queen.dfy`, `knight.dfy`, `king.dfy`, `pawn.dfy` | `RookPiece` … `PawnPiece` | the six piece files |

Modelling decisions:

- **Squares.** The source keys the board by notation strings. The model keys
  it by the `(file, rank)` index pair that a string encodes, 0..7 each.
  `Utils.Name` and `Utils.Parse` convert between the two. `Utils.NameParseRoundTrip`
  proves the conversion one-to-one between on-board pairs and well-formed
  strings, so the two keyings hold the same boards.
- **Off-board squares.** The castling code builds squares from the king's
  file plus or minus 1, 2 and 3 with no bounds check. The model keeps these
  probes as they are written: a probe off the board is a `Square` value that
  is simply never a key of the board map. `KingPiece.CastlingTargetsOnBoard`
  proves that a king standing on the board only ever produces on-board
  castling targets.
- **Queries the model does not contain.** Castling asks the board two
  questions whose code is not part of this model: is the king's color in
  check, and is a square attacked by a color. They are parameters of the
  model: a `bool` and a function `(Square, Color) -> bool`.
- **Sliding.** Each piece's `canSlide` is a constant function that the walker
  receives as a flag.
- **Loops.** The walker's inner while loop is the method `PieceWalk.Slide`,
  called once per direction by the outer loop. `Knight.getLegalMoves` and
  `King.getAttackSquares` write out the same offset loop; it is modelled
  once, as `Stepping.StepAll`, and each generator calls it with its own table.
- **Where the code differs from its own tests or from the rules of chess,
  the model follows the code.** This happens in four places:
  - The board constructor seeds only the two kings and the two queens
    (`frontend/src/engine/Board.ts:11-39`). The repository's own board test
    "sets up all white pieces" (`frontend/src/engine/__tests__/Board.test.ts:7-40`)
    also expects bishops, knights and rooks on the first rank.
    `Boards.StartingSquaresContents` states the four entries the code writes.
  - Castling checks that the entry on the king's own square is unmoved
    (`frontend/src/engine/pieces/King.ts:84-85`). It never checks that this
    entry is a king, although the rules of chess (article 3.8.2 of the FIDE
    Laws of Chess) make castling a move of the king. An unmoved rook standing
    there can be offered a "castling" target.
  - The rook has its own copy of the sliding loop and does not use the
    shared walker. This is not a rules difference, only a structural one.
    `RookPiece.GetLegalMoves` is proved to compute what the walker would. Its
    two nested loops are the methods `RookPiece.Sweep` and `RookPiece.Slide`.
    `Slide` returns the squares of one direction, which the source pushes one
    by one onto the shared list.
  - The castling probes call `toSquare` with file indices up to 3 away from
    the king's file and no bounds check (`frontend/src/engine/pieces/King.ts:95-165`).
    Under the rules of chess a castling king stands on the e-file, so the
    probes stay on the board. The code does not ensure this, and the model
    keeps the probes as written, as described above.

## Model

| member | source | states |
|---|---|---|
| Types.Opponent | frontend/src/engine/pieces/King.ts:92 | the opponent of a color is the other color |
| Utils.FileToIndex | frontend/src/engine/utils.ts:6-8 | the index is in 0..7 exactly when the first character is a letter a..h, and then it is that letter's position in a..h (a = 0 … h = 7) |
| Utils.IndexToFile | frontend/src/engine/utils.ts:13-15 | for 0..7 the result is one letter a..h, and it parses back to the index |
| Utils.RankToIndex | frontend/src/engine/utils.ts:20-22 | for one digit, the index is in 0..7 exactly when the digit is 1..8, and then the digit is the index's position in 1..8 (1 = 0 … 8 = 7) |
| Utils.IndexToRank | frontend/src/engine/utils.ts:27-29 | for 0..7 the result is one digit 1..8, and it parses back to the index |
| Utils.ToSquare | frontend/src/engine/utils.ts:41-43 | for valid indices the result is a well-formed square whose letter and digit parse back to the indices |
| Utils.FileOf | frontend/src/engine/pieces/Piece.ts:22 | the file index read from a well-formed square is on the board |
| Utils.RankOf | frontend/src/engine/pieces/Piece.ts:23 | the rank index read from a well-formed square is on the board, and its value is fixed by the digit through RankToIndex (1 = 0 … 8 = 7) |
| Utils.FileLetterRoundTrip | frontend/src/engine/utils.ts:6-15 | building the letter of a parsed file letter gives the letter back |
| Utils.RankDigitRoundTrip | frontend/src/engine/utils.ts:20-29 | building the digit of a parsed rank digit gives the digit back |
| Utils.SquareRoundTrip | frontend/src/engine/utils.ts:41-43 | parsing a well-formed square and building it again gives the same string |
| Utils.ToSquareInjective | frontend/src/engine/utils.ts:41-43 | distinct valid index pairs give distinct square strings |
| Utils.IsValidSquare | frontend/src/engine/utils.ts:34-36 | indices pass the bounds check exactly when the characters that toSquare would build from them, 'a' + file and '1' + rank, are a file letter a..h and a rank digit 1..8 |
| Utils.ValidSquareIffParsed | frontend/src/engine/utils.ts:34-36 | the index pairs that pass the bounds check are exactly those of well-formed squares |
| Utils.Name | frontend/src/engine/utils.ts:41-43 | an on-board square pair is named by a well-formed string |
| Utils.Parse | frontend/src/engine/utils.ts:6-22 | a well-formed string names an on-board pair |
| Utils.NameParseRoundTrip | frontend/src/engine/utils.ts:6-43 | naming and parsing are inverse in both directions |
| Boards.PieceAt | frontend/src/engine/Board.ts:41-43 | a lookup finds a piece exactly when the square has an entry, and then it is that entry; otherwise it is null |
| Boards.StartingSquaresContents | frontend/src/engine/Board.ts:11-39 | after seeding, exactly e1, d1, e8 and d8 are occupied: white king, white queen, black king, black queen, all unmoved |
| Boards.StartingEntriesWellFormed | frontend/src/engine/Board.ts:11-39 | every seeded entry is on the board, records the square it is stored under and has not moved |
| Boards.StartingKings | frontend/src/engine/Board.ts:11-39 | the seeded board has one white king, on e1, and one black king, on e8 |
| Boards.StartingMiddleRanksEmpty | frontend/src/engine/__tests__/Board.test.ts:121-133 | every square on ranks 3 to 6 of the seeded board is empty |
| Boards.Board.constructor | frontend/src/engine/Board.ts:6-9 | a new board holds exactly the four seeded entries |
| Boards.Board.InitializeBoard | frontend/src/engine/Board.ts:11-39 | the four seeded entries are written over whatever the map held; nothing else changes |
| Boards.Board.GetPieceAt | frontend/src/engine/Board.ts:41-43 | reads the board without changing it and answers the map lookup |
| Stepping.StepAll | frontend/src/engine/pieces/Knight.ts:29-43 | the offset loop, written the same way in King.ts:60-72, pushes each offset's target that is on the board and empty or enemy, and so yields exactly Steps |
| Stepping.StepTarget | frontend/src/engine/pieces/Knight.ts:33-42 | one offset contributes at most one target |
| Stepping.Steps | frontend/src/engine/pieces/Knight.ts:29-43 | at most one target per offset; every target is on the board and does not hold a friendly piece |
| Stepping.StepTargetMember | frontend/src/engine/pieces/Knight.ts:33-42 | an offset yields a square exactly when the square is origin plus offset, on the board and not friendly |
| Stepping.StepsMember | frontend/src/engine/pieces/Knight.ts:29-43 | a square is a target exactly when some offset reaches it |
| Stepping.StepsAllOpen | frontend/src/engine/pieces/Knight.ts:29-43 | when every offset lands on an open square, the targets are origin plus each offset, in order |
| Stepping.StepsNoDuplicates | frontend/src/engine/pieces/Knight.ts:18-43 | distinct offsets give targets without repetition |
| Stepping.StepsDependOnlyOnTargets | frontend/src/engine/pieces/Knight.ts:33-42 | two boards that agree on the target squares give the same moves: squares in between are never read |
| PieceWalk.GetLegalMoves | frontend/src/engine/pieces/Piece.ts:20-54 | the walker's loop computes the walk: each direction in turn, square by square, ending after the edge, a friendly piece (excluded), a captured enemy piece (included) or the first step when sliding is off; the board is only read |
| PieceWalk.Slide | frontend/src/engine/pieces/Piece.ts:30-50 | the inner while loop yields exactly the ray: empty squares to the edge, ending before a friendly piece, on a captured enemy piece, or after the first square when sliding is off |
| PieceWalk.CanSlide | frontend/src/engine/pieces/Piece.ts:15-17 | the default lets a piece slide: from an empty square whose next square along the direction is also empty and on the board, the ray goes on to at least two squares |
| PieceWalk.AlongLinear | frontend/src/engine/pieces/Piece.ts:27-28 | the k-th square along a direction is the origin plus k times the direction |
| PieceWalk.RayAlong | frontend/src/engine/pieces/Piece.ts:30-49 | the j-th square of a ray is the (j+1)-th square along its direction, on the board |
| PieceWalk.RayEmptyBeforeLast | frontend/src/engine/pieces/Piece.ts:34-44 | every ray square before its last one is empty |
| PieceWalk.RayStops | frontend/src/engine/pieces/Piece.ts:30-49 | a ray ends at the edge, before a friendly piece, on an enemy piece, or after one step without sliding |
| PieceWalk.VisibleStep | frontend/src/engine/pieces/Piece.ts:30-49 | the square k+1 steps out is reached exactly when sliding is on, the first square is on the board and empty, and the square k steps beyond it is reached from there |
| PieceWalk.RayMember | frontend/src/engine/pieces/Piece.ts:30-49 | a square is in a ray exactly when it is along the direction, on the board, not friendly, with only empty squares before it (and it is the first when sliding is off) |
| PieceWalk.WalkMember | frontend/src/engine/pieces/Piece.ts:26-51 | a square is a move exactly when it lies in the ray of one of the directions |
| PieceWalk.WalkMemberByDirection | frontend/src/engine/pieces/Piece.ts:26-51 | the same, stated over the set of directions rather than positions in the list |
| PieceWalk.WalkMemberVisible | frontend/src/engine/pieces/Piece.ts:26-51 | a square is a move exactly when it is reached along some direction with only empty squares before it |
| PieceWalk.WalkTargetAlong | frontend/src/engine/pieces/Piece.ts:26-50 | every move is n ≥ 1 steps along one of the directions |
| PieceWalk.WalkTargetsLegal | frontend/src/engine/pieces/Piece.ts:30-40 | every move is on the board and never holds a friendly piece |
| PieceWalk.RayBound | frontend/src/engine/pieces/Piece.ts:30-50 | a ray from an on-board square has at most seven squares, at most one without sliding; the loop ends |
| PieceWalk.RayBlockedAfterOne | frontend/src/engine/pieces/Piece.ts:34-39 | a sliding ray whose second square is friendly is its first square alone |
| PieceWalk.RayCaptureAfterOne | frontend/src/engine/pieces/Piece.ts:34-39 | a sliding ray whose second square is an enemy ends with that capture |
| PieceWalk.WalkWithoutSlideIsSteps | frontend/src/engine/pieces/Piece.ts:46 | with sliding off, the walker is the one-step loop: at most one move per direction |
| RookPiece.Directions | frontend/src/engine/pieces/Rook.ts:19 | four unit steps |
| RookPiece.DirectionsOrthogonal | frontend/src/engine/pieces/Rook.ts:19 | each of the four steps changes exactly one of file and rank |
| RookPiece.GetLegalMoves | frontend/src/engine/pieces/Rook.ts:11-53 | the rook's own loops compute the shared walk over its four directions, with sliding |
| RookPiece.Sweep | frontend/src/engine/pieces/Rook.ts:22-50 | the outer loop appends each direction's ray in turn: the result is the walk over the given directions |
| RookPiece.Slide | frontend/src/engine/pieces/Rook.ts:23-49 | the inner loop collects exactly the ray: empty squares up to the edge, ending before a friendly piece or on a captured enemy piece |
| RookPiece.TargetsOnLines | frontend/src/engine/pieces/Rook.ts:19-49 | every rook move shares exactly one of file and rank with the rook, is on the board and is not friendly |
| RookPiece.EmptyBoardFromD4 | frontend/src/engine/__tests__/Rook.test.ts:8-46 | on an empty board a rook on d4 has the 14 squares of its file and rank |
| RookPiece.StopsBeforeFriends | frontend/src/engine/__tests__/Rook.test.ts:48-84 | friendly pieces two squares away leave only d5, d3, e4, c4 |
| RookPiece.CapturesAndStops | frontend/src/engine/__tests__/Rook.test.ts:86-114 | enemy pieces two squares away are captured and nothing beyond them is reached |
| BishopPiece.Directions | frontend/src/engine/pieces/Bishop.ts:10-17 | four unit steps, each changing both file and rank |
| BishopPiece.GetLegalMoves | frontend/src/engine/pieces/Bishop.ts:5-19 | the bishop's moves are the shared walk over its four diagonals, with sliding |
| BishopPiece.TargetsOnDiagonals | frontend/src/engine/pieces/Bishop.ts:10-17 | every bishop move changes file and rank by the same non-zero amount, is on the board and is not friendly |
| BishopPiece.EmptyBoardFromE4 | frontend/src/engine/__tests__/Bishop.test.ts:7-48 | on an empty board a bishop on e4 has the 13 squares of its diagonals |
| BishopPiece.StopsBeforeFriends | frontend/src/engine/__tests__/Bishop.test.ts:50-88 | friendly pieces two squares away leave only the four touching diagonal squares |
| BishopPiece.CapturesAndStops | frontend/src/engine/__tests__/Bishop.test.ts:90-123 | enemy pieces two squares away are captured and nothing beyond them is reached |
| QueenPiece.Directions | frontend/src/engine/pieces/Queen.ts:9-20 | eight unit steps |
| QueenPiece.DirectionsComplete | frontend/src/engine/pieces/Queen.ts:9-20 | the eight are exactly the unit steps, each once, no entry repeated |
| QueenPiece.GetLegalMoves | frontend/src/engine/pieces/Queen.ts:4-21 | the queen's moves are the shared walk over its eight directions, with sliding |
| QueenPiece.RookPlusBishop | frontend/src/engine/pieces/Queen.ts:9-20 | a square is a queen move exactly when it is a rook move or a bishop move from the same square |
| QueenPiece.EmptyBoardFromD4 | frontend/src/engine/__tests__/Queen.test.ts:55-72 | on an empty board a queen on d4 has 27 moves |
| QueenPiece.StopsBeforeFriends | frontend/src/engine/__tests__/Queen.test.ts:74-140 | friendly pieces two squares away in all eight directions leave the eight neighbours |
| QueenPiece.CapturesAndStops | frontend/src/engine/__tests__/Queen.test.ts:142-206 | enemy pieces two squares away are captured in all eight directions, 16 moves |
| KnightPiece.Jumps | frontend/src/engine/pieces/Knight.ts:18-27 | eight distinct offsets, each two squares one way and one the other |
| KnightPiece.GetLegalMoves | frontend/src/engine/pieces/Knight.ts:11-46 | the knight's moves are the offset loop run over its jump table: each jump that lands on the board on an empty or enemy square, in table order |
| KnightPiece.TargetsMember | frontend/src/engine/pieces/Knight.ts:29-43 | a square is a knight move exactly when it is an L-shaped jump away, on the board and not friendly |
| KnightPiece.TargetsDistinct | frontend/src/engine/pieces/Knight.ts:18-45 | at most eight moves, none repeated |
| KnightPiece.JumpsOverPieces | frontend/src/engine/pieces/Knight.ts:33-42 | boards that agree on the eight landing squares give the same knight moves |
| KnightPiece.EmptyBoardFromD4 | frontend/src/engine/__tests__/Knight.test.ts:7-38 | on an empty board a knight on d4 has all eight jumps |
| KnightPiece.JumpsOutOfARing | frontend/src/engine/__tests__/Knight.test.ts:40-69 | a knight surrounded by pieces still has all eight jumps |
| KnightPiece.FriendlyTargetsRemoved | frontend/src/engine/__tests__/Knight.test.ts:71-97 | landing squares held by friendly pieces are dropped |
| KnightPiece.EnemyTargetsCaptured | frontend/src/engine/__tests__/Knight.test.ts:99-125 | landing squares held by enemy pieces are kept |
| KingPiece.Directions | frontend/src/engine/pieces/King.ts:11-22 | eight unit steps |
| KingPiece.DirectionsComplete | frontend/src/engine/pieces/King.ts:11-22 | the eight are exactly the unit steps, each once |
| KingPiece.GetAttackSquares | frontend/src/engine/pieces/King.ts:48-75 | the attack squares are the offset loop run over the eight neighbour steps: each neighbour on the board that is empty or enemy, in direction order |
| KingPiece.CanSlide | frontend/src/engine/pieces/King.ts:24-26 | the king does not slide: every ray it walks has at most one square |
| KingPiece.AttackSquaresAreBaseMoves | frontend/src/engine/pieces/King.ts:24-75 | the attack squares equal the walker's moves with sliding off |
| KingPiece.BaseMovesMember | frontend/src/engine/pieces/King.ts:11-26 | a square is a base king move exactly when it touches the king, is on the board and is not friendly |
| KingPiece.BaseMovesDistinct | frontend/src/engine/pieces/King.ts:11-26 | at most eight base moves, none repeated |
| KingPiece.GetCastlingMoves | frontend/src/engine/pieces/King.ts:80-168 | castling is offered only if the king's entry is unmoved and not in check; kingside needs an unmoved own rook on the h-file square of the king's rank, two empty squares, and the king's square and both path squares unattacked; queenside the same with the a-file rook, three empty squares and two unattacked path squares |
| KingPiece.CastlingMovesMember | frontend/src/engine/pieces/King.ts:80-168 | a square is a castling target exactly when the early checks pass and it is two files right with kingside possible, or two files left with queenside possible |
| KingPiece.CastlingTargetsShape | frontend/src/engine/pieces/King.ts:80-168 | whatever the entry on the king's square, at most two castling targets, each on the king's rank and two files away |
| KingPiece.CastlingTargetsOnBoard | frontend/src/engine/pieces/King.ts:95-165 | with a king on the board, castling targets are on the board, on the king's rank, two files away, at most two; kingside needs file ≤ e, queenside file ≥ e |
| KingPiece.GetLegalMoves | frontend/src/engine/pieces/King.ts:31-42 | the base moves, followed by the castling moves when asked for |
| KingPiece.LegalMovesMember | frontend/src/engine/pieces/King.ts:31-42 | with castling a move is a base move or a castling target, and isCastlingMove tells which; without castling, exactly the base moves |
| KingPiece.IsCastlingMove | frontend/src/engine/pieces/King.ts:173-179 | a target two files away is never the king's square nor a neighbour of it |
| KingPiece.IsCastlingMoveSeparates | frontend/src/engine/pieces/King.ts:173-179 | castling targets are detected as castling moves and base moves never are |
| KingPiece.NoCastlingFromStartingSquares | frontend/src/engine/pieces/King.ts:95-138 | the seeded board has no rooks, so no king can castle on it |
| KingPiece.LoneKingOnD4 | frontend/src/engine/__tests__/King.test.ts:7-45 | a lone king on d4 has its eight neighbours, also with castling asked for |
| KingPiece.FriendlyNeighboursRemoved | frontend/src/engine/__tests__/King.test.ts:47-75 | with castling asked for, as the test's call does by default, neighbours held by friendly pieces are dropped and nothing is added |
| KingPiece.EnemyNeighboursCaptured | frontend/src/engine/__tests__/King.test.ts:77-102 | with castling asked for, neighbours held by enemy pieces are kept: the moves equal those of the empty board |
| KingPiece.CastlingWhenConditionsMet | frontend/src/engine/__tests__/Castling.test.ts:7-42 | white castles to g1 and c1, black to g8, when the conditions hold |
| KingPiece.NoCastlingWhenConditionsFail | frontend/src/engine/__tests__/Castling.test.ts:44-129 | no castling after a king or rook move, with a piece between, in check, through an attacked square, or onto one |
| KingPiece.QueensideIgnoresB1 | frontend/src/engine/pieces/King.ts:150-155 | queenside castling checks e1, d1 and c1 for attack, not b1 |
| KingPiece.DetectsCastlingMoves | frontend/src/engine/__tests__/Castling.test.ts:131-138 | e1 to g1 and e1 to c1 are castling moves, e1 to f1 is not |
| PawnPiece.GetLegalMoves | frontend/src/engine/pieces/Pawn.ts:11-72 | the pawn's code computes the forward moves followed by the captures toward lower and then higher files |
| PawnPiece.CapturesMember | frontend/src/engine/pieces/Pawn.ts:54-69 | a square is a capture exactly when one of the offsets gives it |
| PawnPiece.MovesMember | frontend/src/engine/pieces/Pawn.ts:11-72 | a square is a pawn move exactly when it is the single step onto an empty square, the double step from the starting rank over two empty squares, or a diagonal step onto an enemy piece |
| PawnPiece.MovesGoForward | frontend/src/engine/pieces/Pawn.ts:19-58 | every pawn move goes one or two ranks forward: up for white, down for black |
| PawnPiece.MovesBound | frontend/src/engine/pieces/Pawn.ts:29-69 | at most four pawn moves |
| PawnPiece.ForwardOnlyEmptyDiagonalOnlyCapture | frontend/src/engine/pieces/Pawn.ts:29-69 | a move on the pawn's file lands on an empty square; a move off it captures an enemy piece |
| PawnPiece.SingleStepsOnEmptyBoard | frontend/src/engine/__tests__/Pawn.test.ts:7-45 | white on e4 goes to e5, black on e5 goes to e4 |
| PawnPiece.DoubleStepsFromStartingRank | frontend/src/engine/__tests__/Pawn.test.ts:47-67 | from the starting rank both the single and the double step are offered |
| PawnPiece.BlockedPawns | frontend/src/engine/__tests__/Pawn.test.ts:69-99 | a piece right in front blocks both steps; a piece two ahead blocks only the double step |
| PawnPiece.CapturesDiagonally | frontend/src/engine/__tests__/Pawn.test.ts:101-138 | enemy pieces diagonally ahead are captured; one straight ahead is neither captured nor passed |
| PawnPiece.NoFriendlyCaptures | frontend/src/engine/__tests__/Pawn.test.ts:140-160 | friendly pieces diagonally ahead are not captured |

## Left out

- Square strings of other shapes: the model's board is keyed by index pairs, so notation strings that are not two characters, letter a–h then digit 1–8, are not represented. `Utils.RankToIndex` takes a single decimal digit; `parseInt` on longer or non-numeric text is not modelled.
- Utils.ToSquare, Utils.IndexToFile, Utils.IndexToRank: each requires on-board indices 0..7, while the source accepts any number. `String.fromCharCode` on out-of-range indices builds strings that are not squares. The only unguarded caller is castling, which the model handles on index pairs.
- Utils.FileToIndex: works on a Dafny `char`, not a UTF-16 code unit; the two agree for every character a square can hold.
- Placing, moving and removing pieces, building an empty board, check and attack detection, checkmate and stalemate: these board operations are not part of this model. The two castling queries they answer are parameters.
- En passant and promotion are not in the pawn code that is modelled.
- The React components, the backend and the dispatch from a piece record to its generator class are outside the move generator.
- KingPiece.GetLegalMoves: the default `includeCastling = true` becomes an explicit argument; a call that omits it, as the board UI's `getLegalMoves(board)` does, is the call with `true`.
- PieceWalk.GetLegalMoves: the abstract class's polymorphic `getDirections` and `canSlide` become arguments of the walker; each piece passes its own table and flag.
