/**
 * The queen (frontend/src/engine/pieces/Queen.ts): only a direction table of
 * all eight unit steps; the moves come from the shared walker with the
 * inherited sliding flag.
 */
module QueenPiece {
  import opened Types
  import opened Boards
  import opened PieceWalk
  import RookPiece
  import BishopPiece

  /** The eight unit steps, in the source's order: four orthogonal, then four diagonal. */
  function Directions(): (ds: seq<Direction>)
    ensures AllUnit(ds) && |ds| == 8
  {
    [(-1, 0), (1, 0), (0, 1), (0, -1), (-1, -1), (1, 1), (-1, 1), (1, -1)]
  }

  /** The table lists every unit step: the four orthogonal and the four diagonal ones. */
  lemma DirectionsComplete()
    ensures forall d :: IsUnit(d) <==> d in Directions()
    ensures forall i, j :: 0 <= i < j < |Directions()| ==> Directions()[i] != Directions()[j]
  {
  }

  /** The queen's moves. */
  function Targets(color: Color, position: Square, squares: map<Square, Piece>): seq<Square> {
    Walk(color, position, Directions(), CanSlide(), squares)
  }

  /** Queen.getLegalMoves, inherited from Piece. */
  method GetLegalMoves(color: Color, position: Square, board: Boards.Board) returns (moves: seq<Square>)
    ensures moves == Targets(color, position, board.squares)
  {
    moves := PieceWalk.GetLegalMoves(color, position, Directions(), CanSlide(), board);
  }

  /**
   * The queen combines the rook and the bishop: as sets, its targets are the
   * rook's targets together with the bishop's, for the same color, square and
   * board.
   */
  lemma RookPlusBishop(color: Color, position: Square, squares: map<Square, Piece>, s: Square)
    ensures s in Targets(color, position, squares)
      <==> s in RookPiece.Targets(color, position, squares) || s in BishopPiece.Targets(color, position, squares)
  {
    var qs, rs, bs := Directions(), RookPiece.Directions(), BishopPiece.Directions();
    DirectionsComplete();
    WalkMemberByDirection(color, position, qs, true, squares, s);
    WalkMemberByDirection(color, position, rs, true, squares, s);
    WalkMemberByDirection(color, position, bs, true, squares, s);
    assert forall d :: d in qs <==> d in rs || d in bs;
  }

  // The positions of the queen's unit tests: a white queen on d4.

  /** Pawns of one color two squares from d4 in all eight directions: b4, f4, d6, d2, b6, f2, f6, b2. */
  function Star(color: Color): map<Square, Piece> {
    map[Square(1, 3) := Piece(Pawn, color, Square(1, 3), false), Square(5, 3) := Piece(Pawn, color, Square(5, 3), false),
        Square(3, 5) := Piece(Pawn, color, Square(3, 5), false), Square(3, 1) := Piece(Pawn, color, Square(3, 1), false),
        Square(1, 5) := Piece(Pawn, color, Square(1, 5), false), Square(5, 1) := Piece(Pawn, color, Square(5, 1), false),
        Square(5, 5) := Piece(Pawn, color, Square(5, 5), false), Square(1, 1) := Piece(Pawn, color, Square(1, 1), false)]
  }

  lemma FromD4(squares: map<Square, Piece>)
    ensures Targets(White, D4, squares)
      == Ray(White, Shift(D4, (-1, 0)), (-1, 0), true, squares) + Ray(White, Shift(D4, (1, 0)), (1, 0), true, squares)
       + Ray(White, Shift(D4, (0, 1)), (0, 1), true, squares) + Ray(White, Shift(D4, (0, -1)), (0, -1), true, squares)
       + (Ray(White, Shift(D4, (-1, -1)), (-1, -1), true, squares) + Ray(White, Shift(D4, (1, 1)), (1, 1), true, squares)
       + Ray(White, Shift(D4, (-1, 1)), (-1, 1), true, squares) + Ray(White, Shift(D4, (1, -1)), (1, -1), true, squares))
  {
    var ds := Directions();
    WalkOfEight(White, D4, ds, true, squares);
    WalkOfFour(White, D4, ds[..4], true, squares);
    WalkOfFour(White, D4, ds[4..], true, squares);
  }

  lemma LeftEmpty() ensures Ray(White, Shift(D4, (-1, 0)), (-1, 0), true, map[]) == [Square(2, 3), Square(1, 3), Square(0, 3)] {}
  lemma RightEmpty() ensures Ray(White, Shift(D4, (1, 0)), (1, 0), true, map[]) == [Square(4, 3), Square(5, 3), Square(6, 3), Square(7, 3)] {}
  lemma UpEmpty() ensures Ray(White, Shift(D4, (0, 1)), (0, 1), true, map[]) == [Square(3, 4), Square(3, 5), Square(3, 6), Square(3, 7)] {}
  lemma DownEmpty() ensures Ray(White, Shift(D4, (0, -1)), (0, -1), true, map[]) == [Square(3, 2), Square(3, 1), Square(3, 0)] {}
  lemma DownLeftEmpty() ensures Ray(White, Shift(D4, (-1, -1)), (-1, -1), true, map[]) == [Square(2, 2), Square(1, 1), Square(0, 0)] {}
  lemma UpRightEmpty() ensures Ray(White, Shift(D4, (1, 1)), (1, 1), true, map[]) == [Square(4, 4), Square(5, 5), Square(6, 6), Square(7, 7)] {}
  lemma UpLeftEmpty() ensures Ray(White, Shift(D4, (-1, 1)), (-1, 1), true, map[]) == [Square(2, 4), Square(1, 5), Square(0, 6)] {}
  lemma DownRightEmpty() ensures Ray(White, Shift(D4, (1, -1)), (1, -1), true, map[]) == [Square(4, 2), Square(5, 1), Square(6, 0)] {}

  lemma LeftFriend() ensures Ray(White, Shift(D4, (-1, 0)), (-1, 0), true, Star(White)) == [Square(2, 3)] {}
  lemma RightFriend() ensures Ray(White, Shift(D4, (1, 0)), (1, 0), true, Star(White)) == [Square(4, 3)] {}
  lemma UpFriend() ensures Ray(White, Shift(D4, (0, 1)), (0, 1), true, Star(White)) == [Square(3, 4)] {}
  lemma DownFriend() ensures Ray(White, Shift(D4, (0, -1)), (0, -1), true, Star(White)) == [Square(3, 2)] {}
  lemma DownLeftFriend() ensures Ray(White, Shift(D4, (-1, -1)), (-1, -1), true, Star(White)) == [Square(2, 2)] {}
  lemma UpRightFriend() ensures Ray(White, Shift(D4, (1, 1)), (1, 1), true, Star(White)) == [Square(4, 4)] {}
  lemma UpLeftFriend() ensures Ray(White, Shift(D4, (-1, 1)), (-1, 1), true, Star(White)) == [Square(2, 4)] {}
  lemma DownRightFriend() ensures Ray(White, Shift(D4, (1, -1)), (1, -1), true, Star(White)) == [Square(4, 2)] {}

  lemma LeftEnemy() ensures Ray(White, Shift(D4, (-1, 0)), (-1, 0), true, Star(Black)) == [Square(2, 3), Square(1, 3)] {}
  lemma RightEnemy() ensures Ray(White, Shift(D4, (1, 0)), (1, 0), true, Star(Black)) == [Square(4, 3), Square(5, 3)] {}
  lemma UpEnemy() ensures Ray(White, Shift(D4, (0, 1)), (0, 1), true, Star(Black)) == [Square(3, 4), Square(3, 5)] {}
  lemma DownEnemy() ensures Ray(White, Shift(D4, (0, -1)), (0, -1), true, Star(Black)) == [Square(3, 2), Square(3, 1)] {}
  lemma DownLeftEnemy() ensures Ray(White, Shift(D4, (-1, -1)), (-1, -1), true, Star(Black)) == [Square(2, 2), Square(1, 1)] {}
  lemma UpRightEnemy() ensures Ray(White, Shift(D4, (1, 1)), (1, 1), true, Star(Black)) == [Square(4, 4), Square(5, 5)] {}
  lemma UpLeftEnemy() ensures Ray(White, Shift(D4, (-1, 1)), (-1, 1), true, Star(Black)) == [Square(2, 4), Square(1, 5)] {}
  lemma DownRightEnemy() ensures Ray(White, Shift(D4, (1, -1)), (1, -1), true, Star(Black)) == [Square(4, 2), Square(5, 1)] {}

  /** On an empty board the queen on d4 reaches twenty-seven squares: its file, its rank and both diagonals. */
  lemma EmptyBoardFromD4()
    ensures Targets(White, D4, map[])
      == [Square(2, 3), Square(1, 3), Square(0, 3)] + [Square(4, 3), Square(5, 3), Square(6, 3), Square(7, 3)] + [Square(3, 4), Square(3, 5), Square(3, 6), Square(3, 7)] + [Square(3, 2), Square(3, 1), Square(3, 0)]
       + ([Square(2, 2), Square(1, 1), Square(0, 0)] + [Square(4, 4), Square(5, 5), Square(6, 6), Square(7, 7)] + [Square(2, 4), Square(1, 5), Square(0, 6)] + [Square(4, 2), Square(5, 1), Square(6, 0)])
    ensures |Targets(White, D4, map[])| == 27
  {
    FromD4(map[]);
    LeftEmpty();
    RightEmpty();
    UpEmpty();
    DownEmpty();
    DownLeftEmpty();
    UpRightEmpty();
    UpLeftEmpty();
    DownRightEmpty();
  }

  /** Friendly pawns two squares away leave only the eight neighbours. */
  lemma StopsBeforeFriends()
    ensures Targets(White, D4, Star(White))
      == [Square(2, 3)] + [Square(4, 3)] + [Square(3, 4)] + [Square(3, 2)]
       + ([Square(2, 2)] + [Square(4, 4)] + [Square(2, 4)] + [Square(4, 2)])
    ensures |Targets(White, D4, Star(White))| == 8
  {
    FromD4(Star(White));
    LeftFriend();
    RightFriend();
    UpFriend();
    DownFriend();
    DownLeftFriend();
    UpRightFriend();
    UpLeftFriend();
    DownRightFriend();
  }

  /** Enemy pawns two squares away are captured: two squares in each of the eight directions. */
  lemma CapturesAndStops()
    ensures Targets(White, D4, Star(Black))
      == [Square(2, 3), Square(1, 3)] + [Square(4, 3), Square(5, 3)] + [Square(3, 4), Square(3, 5)] + [Square(3, 2), Square(3, 1)]
       + ([Square(2, 2), Square(1, 1)] + [Square(4, 4), Square(5, 5)] + [Square(2, 4), Square(1, 5)] + [Square(4, 2), Square(5, 1)])
    ensures |Targets(White, D4, Star(Black))| == 16
  {
    FromD4(Star(Black));
    LeftEnemy();
    RightEnemy();
    UpEnemy();
    DownEnemy();
    DownLeftEnemy();
    UpRightEnemy();
    UpLeftEnemy();
    DownRightEnemy();
  }
}
