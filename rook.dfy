/**
 * The rook (frontend/src/engine/pieces/Rook.ts). The source does not use the
 * shared walker: it has its own copy of the sliding loop over the four
 * orthogonal directions. The copy is modelled as written, its outer loop as
 * the method Sweep and its inner while loop as the method Slide, and proved
 * to compute the walker's specification with sliding on.
 */
module RookPiece {
  import opened Types
  import opened Utils
  import opened Boards
  import opened PieceWalk

  /** The four orthogonal unit steps, in the source's order: up the file, down, right, left. */
  function Directions(): (ds: seq<Direction>)
    ensures AllUnit(ds) && |ds| == 4
  {
    [(0, 1), (0, -1), (1, 0), (-1, 0)]
  }

  /** Each direction changes exactly one of file and rank. */
  lemma DirectionsOrthogonal()
    ensures forall i :: 0 <= i < |Directions()| ==> (Directions()[i].0 == 0) != (Directions()[i].1 == 0)
  {
  }

  /** The rook's moves: every direction walked until the edge or the first piece. */
  function Targets(color: Color, position: Square, squares: map<Square, Piece>): seq<Square> {
    Walk(color, position, Directions(), true, squares)
  }

  /** Rook.getLegalMoves: the four orthogonal directions, swept in turn. */
  method GetLegalMoves(color: Color, position: Square, board: Boards.Board) returns (moves: seq<Square>)
    ensures moves == Targets(color, position, board.squares)
  {
    var directions := Directions();
    moves := Sweep(color, position, directions, board);
  }

  /** The outer for loop of Rook.getLegalMoves: each direction walked by the inner loop, in order. */
  method Sweep(color: Color, position: Square, directions: seq<Direction>, board: Boards.Board) returns (moves: seq<Square>)
    requires AllUnit(directions)
    ensures moves == Walk(color, position, directions, true, board.squares)
  {
    moves := [];
    var currentFile := position.file;
    var currentRank := position.rank;

    for i := 0 to |directions|
      invariant moves == Walk(color, position, directions[..i], true, board.squares)
    {
      var (fileDir, rankDir) := directions[i];
      var ray := Slide(color, currentFile + fileDir, currentRank + rankDir, directions[i], board);
      assert Square(currentFile + fileDir, currentRank + rankDir) == Shift(position, directions[i]);
      WalkExtend(color, position, directions, i, true, board.squares, moves, ray);
      moves := moves + ray;
    }
    assert directions[..|directions|] == directions;
  }

  /** The inner while loop of Rook.getLegalMoves: one direction, until the edge or the first piece. */
  method Slide(color: Color, file0: int, rank0: int, d: Direction, board: Boards.Board) returns (moves: seq<Square>)
    requires IsUnit(d)
    ensures moves == Ray(color, Square(file0, rank0), d, true, board.squares)
  {
    moves := [];
    var (fileDir, rankDir) := d;
    var file := file0;
    var rank := rank0;
    while IsValidSquare(file, rank)
      invariant moves + Ray(color, Square(file, rank), d, true, board.squares) == Ray(color, Square(file0, rank0), d, true, board.squares)
      decreases Room(file, fileDir) + Room(rank, rankDir)
    {
      var targetSquare := Square(file, rank);
      var pieceAtTarget := board.GetPieceAt(targetSquare);
      ghost var previous := moves;

      if pieceAtTarget.Some? {
        if pieceAtTarget.value.color == color {
          // blocked by a friendly piece
          assert Ray(color, targetSquare, d, true, board.squares) == [];
          break;
        } else {
          // an enemy piece is captured; nothing beyond it
          assert Ray(color, targetSquare, d, true, board.squares) == [targetSquare];
          moves := moves + [targetSquare];
          break;
        }
      } else {
        assert IsEmpty(board.squares, targetSquare);
        moves := moves + [targetSquare];
      }

      assert Square(file + fileDir, rank + rankDir) == Shift(targetSquare, d);
      ConcatAssoc(previous, [targetSquare], Ray(color, Shift(targetSquare, d), d, true, board.squares));
      file := file + fileDir;
      rank := rank + rankDir;
    }
  }

  /**
   * Every rook target shares exactly one of file and rank with the rook; it
   * is on the board and not held by the rook's own color.
   */
  lemma TargetsOnLines(color: Color, position: Square, squares: map<Square, Piece>, s: Square)
    requires s in Targets(color, position, squares)
    ensures (s.file == position.file) != (s.rank == position.rank)
    ensures OnBoard(s) && !HoldsColor(squares, s, color)
  {
    var ds := Directions();
    DirectionsOrthogonal();
    WalkTargetsLegal(color, position, ds, true, squares, s);
    WalkTargetAlong(color, position, ds, true, squares, s);
    var i, n: nat :| 0 <= i < |ds| && 1 <= n && s == Along(position, ds[i], n);
    AlongLinear(position, ds[i], n);
    UnitTimes(n, ds[i].0);
    UnitTimes(n, ds[i].1);
  }

  // The positions of the rook's unit tests: a white rook on d4.

  /** Pawns of one color on d6, d2, f4 and b4, two squares from d4 in each direction. */
  function Cross(color: Color): map<Square, Piece> {
    map[Square(3, 5) := Piece(Pawn, color, Square(3, 5), false), Square(3, 1) := Piece(Pawn, color, Square(3, 1), false),
        Square(5, 3) := Piece(Pawn, color, Square(5, 3), false), Square(1, 3) := Piece(Pawn, color, Square(1, 3), false)]
  }

  lemma FromD4(squares: map<Square, Piece>)
    ensures Targets(White, D4, squares)
      == Ray(White, Shift(D4, (0, 1)), (0, 1), true, squares) + Ray(White, Shift(D4, (0, -1)), (0, -1), true, squares)
       + Ray(White, Shift(D4, (1, 0)), (1, 0), true, squares) + Ray(White, Shift(D4, (-1, 0)), (-1, 0), true, squares)
  {
    WalkOfFour(White, D4, Directions(), true, squares);
  }

  lemma UpEmpty() ensures Ray(White, Shift(D4, (0, 1)), (0, 1), true, map[]) == [Square(3, 4), Square(3, 5), Square(3, 6), Square(3, 7)] {}
  lemma DownEmpty() ensures Ray(White, Shift(D4, (0, -1)), (0, -1), true, map[]) == [Square(3, 2), Square(3, 1), Square(3, 0)] {}
  lemma RightEmpty() ensures Ray(White, Shift(D4, (1, 0)), (1, 0), true, map[]) == [Square(4, 3), Square(5, 3), Square(6, 3), Square(7, 3)] {}
  lemma LeftEmpty() ensures Ray(White, Shift(D4, (-1, 0)), (-1, 0), true, map[]) == [Square(2, 3), Square(1, 3), Square(0, 3)] {}

  /** On an empty board the rook on d4 reaches all fourteen squares of its file and rank, up, down, right, left. */
  lemma EmptyBoardFromD4()
    ensures Targets(White, D4, map[])
      == [Square(3, 4), Square(3, 5), Square(3, 6), Square(3, 7)] + [Square(3, 2), Square(3, 1), Square(3, 0)]
       + [Square(4, 3), Square(5, 3), Square(6, 3), Square(7, 3)] + [Square(2, 3), Square(1, 3), Square(0, 3)]
    ensures |Targets(White, D4, map[])| == 14
  {
    FromD4(map[]);
    UpEmpty();
    DownEmpty();
    RightEmpty();
    LeftEmpty();
  }

  /** Friendly pawns two squares away leave only the four neighbours d5, d3, e4 and c4. */
  lemma StopsBeforeFriends()
    ensures Targets(White, D4, Cross(White)) == [Square(3, 4), Square(3, 2), Square(4, 3), Square(2, 3)]
  {
    FromD4(Cross(White));
  }

  /** Enemy pawns two squares away are captured and nothing beyond them is reached. */
  lemma CapturesAndStops()
    ensures Targets(White, D4, Cross(Black))
      == [Square(3, 4), Square(3, 5), Square(3, 2), Square(3, 1), Square(4, 3), Square(5, 3), Square(2, 3), Square(1, 3)]
  {
    FromD4(Cross(Black));
  }
}
