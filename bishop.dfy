/**
 * The bishop (frontend/src/engine/pieces/Bishop.ts): only a direction table;
 * the moves come from the shared walker with the inherited sliding flag.
 */
module BishopPiece {
  import opened Types
  import opened Utils
  import opened Boards
  import opened PieceWalk

  /** The four diagonal unit steps, in the source's order. */
  function Directions(): (ds: seq<Direction>)
    ensures AllUnit(ds) && |ds| == 4
    ensures forall i :: 0 <= i < |ds| ==> ds[i].0 != 0 && ds[i].1 != 0
  {
    [(-1, -1), (1, 1), (-1, 1), (1, -1)]
  }

  /** The bishop's moves. */
  function Targets(color: Color, position: Square, squares: map<Square, Piece>): seq<Square> {
    Walk(color, position, Directions(), CanSlide(), squares)
  }

  /** Bishop.getLegalMoves, inherited from Piece. */
  method GetLegalMoves(color: Color, position: Square, board: Boards.Board) returns (moves: seq<Square>)
    ensures moves == Targets(color, position, board.squares)
  {
    moves := PieceWalk.GetLegalMoves(color, position, Directions(), CanSlide(), board);
  }

  function Abs(x: int): nat {
    if x < 0 then -x else x
  }

  /**
   * Every bishop target is a diagonal move: the file and the rank change by
   * the same nonzero amount, so no orthogonal neighbour is ever a target. It
   * is on the board and not friendly.
   */
  lemma TargetsOnDiagonals(color: Color, position: Square, squares: map<Square, Piece>, s: Square)
    requires s in Targets(color, position, squares)
    ensures Abs(s.file - position.file) == Abs(s.rank - position.rank) > 0
    ensures OnBoard(s) && !HoldsColor(squares, s, color)
  {
    var ds := Directions();
    WalkTargetsLegal(color, position, ds, CanSlide(), squares, s);
    WalkTargetAlong(color, position, ds, CanSlide(), squares, s);
    var i, n: nat :| 0 <= i < |ds| && 1 <= n && s == Along(position, ds[i], n);
    AlongLinear(position, ds[i], n);
    UnitTimes(n, ds[i].0);
    UnitTimes(n, ds[i].1);
  }

  // The positions of the bishop's unit tests: a white bishop on e4.

  const E4 := Square(4, 3)

  /** Pawns of one color on c6, g2, g6 and c2, two squares from e4 on each diagonal. */
  function Saltire(color: Color): map<Square, Piece> {
    map[Square(2, 5) := Piece(Pawn, color, Square(2, 5), false), Square(6, 1) := Piece(Pawn, color, Square(6, 1), false),
        Square(6, 5) := Piece(Pawn, color, Square(6, 5), false), Square(2, 1) := Piece(Pawn, color, Square(2, 1), false)]
  }

  lemma FromE4(squares: map<Square, Piece>)
    ensures Targets(White, E4, squares)
      == Ray(White, Shift(E4, (-1, -1)), (-1, -1), true, squares) + Ray(White, Shift(E4, (1, 1)), (1, 1), true, squares)
       + Ray(White, Shift(E4, (-1, 1)), (-1, 1), true, squares) + Ray(White, Shift(E4, (1, -1)), (1, -1), true, squares)
  {
    WalkOfFour(White, E4, Directions(), true, squares);
  }

  lemma DownLeftEmpty() ensures Ray(White, Shift(E4, (-1, -1)), (-1, -1), true, map[]) == [Square(3, 2), Square(2, 1), Square(1, 0)] {}
  lemma UpRightEmpty() ensures Ray(White, Shift(E4, (1, 1)), (1, 1), true, map[]) == [Square(5, 4), Square(6, 5), Square(7, 6)] {}
  lemma UpLeftEmpty() ensures Ray(White, Shift(E4, (-1, 1)), (-1, 1), true, map[]) == [Square(3, 4), Square(2, 5), Square(1, 6), Square(0, 7)] {}
  lemma DownRightEmpty() ensures Ray(White, Shift(E4, (1, -1)), (1, -1), true, map[]) == [Square(5, 2), Square(6, 1), Square(7, 0)] {}

  /** On an empty board the bishop on e4 reaches the thirteen squares of its two diagonals. */
  lemma EmptyBoardFromE4()
    ensures Targets(White, E4, map[])
      == [Square(3, 2), Square(2, 1), Square(1, 0)] + [Square(5, 4), Square(6, 5), Square(7, 6)]
       + [Square(3, 4), Square(2, 5), Square(1, 6), Square(0, 7)] + [Square(5, 2), Square(6, 1), Square(7, 0)]
    ensures |Targets(White, E4, map[])| == 13
  {
    FromE4(map[]);
    DownLeftEmpty();
    UpRightEmpty();
    UpLeftEmpty();
    DownRightEmpty();
  }

  /** Friendly pawns two squares away leave only the four diagonal neighbours d3, f5, d5 and f3. */
  lemma StopsBeforeFriends()
    ensures Targets(White, E4, Saltire(White)) == [Square(3, 2), Square(5, 4), Square(3, 4), Square(5, 2)]
  {
    FromE4(Saltire(White));
  }

  /** Enemy pawns two squares away are captured and nothing beyond them is reached. */
  lemma CapturesAndStops()
    ensures Targets(White, E4, Saltire(Black))
      == [Square(3, 2), Square(2, 1)] + [Square(5, 4), Square(6, 5)] + [Square(3, 4), Square(2, 5)] + [Square(5, 2), Square(6, 1)]
  {
    FromE4(Saltire(Black));
  }
}
