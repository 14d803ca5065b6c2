/**
 * The knight (frontend/src/engine/pieces/Knight.ts): a fixed table of eight
 * L-shaped jumps; each target is kept when it is on the board and not held
 * by a piece of the knight's color. Pieces in between do not matter.
 */
module KnightPiece {
  import opened Types
  import opened Utils
  import opened Boards
  import opened Stepping

  /** The jump table, in the source's order. */
  function Jumps(): (js: seq<Offset>)
    ensures |js| == 8
    ensures forall i :: 0 <= i < |js| ==>
      (js[i].0 * js[i].0 == 4 && js[i].1 * js[i].1 == 1) || (js[i].0 * js[i].0 == 1 && js[i].1 * js[i].1 == 4)
    ensures forall i, j :: 0 <= i < j < |js| ==> js[i] != js[j]
  {
    [(2, 1), (2, -1), (-2, 1), (-2, -1), (1, 2), (1, -2), (-1, 2), (-1, -2)]
  }

  /** The knight's moves. */
  function Targets(color: Color, position: Square, squares: map<Square, Piece>): seq<Square> {
    Steps(color, position, Jumps(), squares)
  }

  /** Knight.getLegalMoves. */
  method GetLegalMoves(color: Color, position: Square, board: Boards.Board) returns (moves: seq<Square>)
    ensures moves == Targets(color, position, board.squares)
  {
    var knightMoves := Jumps();
    moves := StepAll(color, position, knightMoves, board);
  }

  /**
   * A square is a knight target iff it is on the board, not friendly, and one
   * jump of the table away.
   */
  lemma TargetsMember(color: Color, position: Square, squares: map<Square, Piece>, s: Square)
    ensures s in Targets(color, position, squares) <==>
      exists i :: 0 <= i < |Jumps()| && Reaches(color, position, Jumps()[i], squares, s)
  {
    StepsMember(color, position, Jumps(), squares, s);
  }

  /** At most eight targets, none repeated. */
  lemma TargetsDistinct(color: Color, position: Square, squares: map<Square, Piece>)
    ensures |Targets(color, position, squares)| <= 8
    ensures forall i, j :: 0 <= i < j < |Targets(color, position, squares)| ==>
      Targets(color, position, squares)[i] != Targets(color, position, squares)[j]
  {
    StepsNoDuplicates(color, position, Jumps(), squares);
  }

  /**
   * The knight jumps: two boards that agree on which of the eight target
   * squares are friendly give the same moves, whatever stands anywhere else.
   */
  lemma JumpsOverPieces(color: Color, position: Square, a: map<Square, Piece>, b: map<Square, Piece>)
    requires forall i :: 0 <= i < |Jumps()| ==> AgreeOnTarget(color, position, Jumps()[i], a, b)
    ensures Targets(color, position, a) == Targets(color, position, b)
  {
    StepsDependOnlyOnTargets(color, position, Jumps(), a, b);
  }

  // The positions of the knight's unit tests: a white knight on d4.

  /** From d4 on an empty board all eight jumps are available, in table order. */
  lemma EmptyBoardFromD4()
    ensures Targets(White, D4, map[]) ==
      [Square(5, 4), Square(5, 2), Square(1, 4), Square(1, 2), Square(4, 5), Square(4, 1), Square(2, 5), Square(2, 1)]
  {
    StepsAllOpen(White, D4, Jumps(), map[]);
  }

  /** White pawns on the eight squares around d4. */
  const Ring: map<Square, Piece> := map[
    Square(3, 4) := Piece(Pawn, White, Square(3, 4), false), Square(4, 4) := Piece(Pawn, White, Square(4, 4), false),
    Square(4, 3) := Piece(Pawn, White, Square(4, 3), false), Square(4, 2) := Piece(Pawn, White, Square(4, 2), false),
    Square(3, 2) := Piece(Pawn, White, Square(3, 2), false), Square(2, 2) := Piece(Pawn, White, Square(2, 2), false),
    Square(2, 3) := Piece(Pawn, White, Square(2, 3), false), Square(2, 4) := Piece(Pawn, White, Square(2, 4), false)]

  /** Pieces of one color on c6, e6 and f5: pawns, and a queen on f5 for the captures. */
  function OnThreeTargets(color: Color): map<Square, Piece> {
    map[Square(2, 5) := Piece(Pawn, color, Square(2, 5), false), Square(4, 5) := Piece(Pawn, color, Square(4, 5), false),
        Square(5, 4) := Piece(if color == White then Pawn else Queen, color, Square(5, 4), false)]
  }

  /** Surrounded by its own pawns the knight still has all eight jumps. */
  lemma JumpsOutOfARing()
    ensures Targets(White, D4, Ring) == Targets(White, D4, map[])
  {
    JumpsOverPieces(White, D4, Ring, map[]);
  }

  /** Friendly pawns on c6, e6 and f5 remove those three jumps. */
  lemma FriendlyTargetsRemoved()
    ensures Targets(White, D4, OnThreeTargets(White))
      == [Square(5, 2), Square(1, 4), Square(1, 2), Square(4, 1), Square(2, 1)]
  {
    StepsOfEight(White, D4, Jumps(), OnThreeTargets(White));
  }

  /** Enemy pieces on c6, e6 and f5 can all be captured: the moves are those of the empty board. */
  lemma EnemyTargetsCaptured()
    ensures Targets(White, D4, OnThreeTargets(Black)) == Targets(White, D4, map[])
  {
    JumpsOverPieces(White, D4, OnThreeTargets(Black), map[]);
  }
}
