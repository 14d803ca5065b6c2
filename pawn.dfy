/**
 * The pawn (frontend/src/engine/pieces/Pawn.ts): one step forward onto an
 * empty square, a second step from the starting rank when both squares are
 * empty, and diagonal captures of enemy pieces one rank forward.
 */
module PawnPiece {
  import opened Types
  import opened Utils
  import opened Boards

  /** +1 (toward rank 8) for white, -1 for black. */
  function Forward(color: Color): int {
    if color == White then 1 else -1
  }

  /** The pawns' starting rank index: 1 for white, 6 for black. */
  function StartingRank(color: Color): int {
    if color == White then 1 else 6
  }

  /** The file offsets of the two capture squares, in the source's order. */
  function CaptureOffsets(): seq<int> {
    [-1, 1]
  }

  /** The forward moves: one step onto an empty square, then possibly a second from the starting rank. */
  function ForwardMoves(color: Color, position: Square, squares: map<Square, Piece>): seq<Square> {
    var one := Square(position.file, position.rank + Forward(color));
    var two := Square(position.file, position.rank + Forward(color) * 2);
    if OnBoard(one) && IsEmpty(squares, one) then
      [one] + (if position.rank == StartingRank(color) && OnBoard(two) && IsEmpty(squares, two) then [two] else [])
    else []
  }

  /** The square one rank forward and fileOffset files across, when it holds an enemy piece. */
  function CaptureTarget(color: Color, position: Square, fileOffset: int, squares: map<Square, Piece>): seq<Square> {
    var sq := Square(position.file + fileOffset, position.rank + Forward(color));
    if OnBoard(sq) && PieceAt(squares, sq).Some? && PieceAt(squares, sq).value.color != color then [sq] else []
  }

  /** The captures for the given offsets, in order. */
  function Captures(color: Color, position: Square, offsets: seq<int>, squares: map<Square, Piece>): seq<Square> {
    if offsets == [] then []
    else Captures(color, position, offsets[..|offsets| - 1], squares) + CaptureTarget(color, position, offsets[|offsets| - 1], squares)
  }

  /** The pawn's moves: forward moves first, then captures toward lower files, then higher. */
  function Moves(color: Color, position: Square, squares: map<Square, Piece>): seq<Square> {
    ForwardMoves(color, position, squares) + Captures(color, position, CaptureOffsets(), squares)
  }

  /** Pawn.getLegalMoves. */
  method GetLegalMoves(color: Color, position: Square, board: Boards.Board) returns (moves: seq<Square>)
    ensures moves == Moves(color, position, board.squares)
  {
    moves := [];
    var currentFile := position.file;
    var currentRank := position.rank;
    var direction := if color == White then 1 else -1;
    var startingRank := if color == White then 1 else 6;
    var isFirstMove := currentRank == startingRank;

    var forwardFile := currentFile;
    var forwardRank := currentRank + direction;
    if IsValidSquare(forwardFile, forwardRank) {
      var forwardSquare := Square(forwardFile, forwardRank);
      var pieceAhead := board.GetPieceAt(forwardSquare);
      if pieceAhead.None? {
        moves := moves + [forwardSquare];
        if isFirstMove {
          var doubleForwardRank := currentRank + direction * 2;
          if IsValidSquare(forwardFile, doubleForwardRank) {
            var doubleForwardSquare := Square(forwardFile, doubleForwardRank);
            var pieceTwoAhead := board.GetPieceAt(doubleForwardSquare);
            if pieceTwoAhead.None? {
              moves := moves + [doubleForwardSquare];
            }
          }
        }
      }
    }
    assert moves == ForwardMoves(color, position, board.squares);

    var captureOffsets := CaptureOffsets();
    for i := 0 to |captureOffsets|
      invariant moves == ForwardMoves(color, position, board.squares) + Captures(color, position, captureOffsets[..i], board.squares)
    {
      var fileOffset := captureOffsets[i];
      var captureFile := currentFile + fileOffset;
      var captureRank := currentRank + direction;
      ghost var previous := moves;
      if IsValidSquare(captureFile, captureRank) {
        var captureSquare := Square(captureFile, captureRank);
        var pieceAtCapture := board.GetPieceAt(captureSquare);
        if pieceAtCapture.Some? && pieceAtCapture.value.color != color {
          moves := moves + [captureSquare];
        }
      }
      assert moves == previous + CaptureTarget(color, position, fileOffset, board.squares);
      CapturesStep(color, position, captureOffsets, i, board.squares);
      ConcatAssoc(ForwardMoves(color, position, board.squares), Captures(color, position, captureOffsets[..i], board.squares),
                  CaptureTarget(color, position, fileOffset, board.squares));
    }
    assert captureOffsets[..|captureOffsets|] == captureOffsets;
  }

  /** One iteration of the capture loop: the next offset's capture is appended. */
  lemma CapturesStep(color: Color, position: Square, offsets: seq<int>, i: nat, squares: map<Square, Piece>)
    requires i < |offsets|
    ensures Captures(color, position, offsets[..i + 1], squares)
      == Captures(color, position, offsets[..i], squares) + CaptureTarget(color, position, offsets[i], squares)
  {
    assert offsets[..i + 1][..i] == offsets[..i];
  }

  /** One step forward onto an empty square on the board. */
  predicate SingleStep(color: Color, position: Square, squares: map<Square, Piece>, s: Square) {
    s == Square(position.file, position.rank + Forward(color)) && OnBoard(s) && IsEmpty(squares, s)
  }

  /** Two steps forward from the starting rank over an empty square onto an empty square. */
  predicate DoubleStep(color: Color, position: Square, squares: map<Square, Piece>, s: Square) {
    position.rank == StartingRank(color)
    && s == Square(position.file, position.rank + 2 * Forward(color)) && OnBoard(s) && IsEmpty(squares, s)
    && IsEmpty(squares, Square(position.file, position.rank + Forward(color)))
  }

  /** One step diagonally forward onto a square holding an enemy piece. */
  predicate DiagonalCapture(color: Color, position: Square, squares: map<Square, Piece>, s: Square) {
    (s.file == position.file - 1 || s.file == position.file + 1) && s.rank == position.rank + Forward(color)
    && OnBoard(s) && s in squares && squares[s].color == Opponent(color)
  }

  lemma {:induction false} CapturesMember(color: Color, position: Square, offsets: seq<int>, squares: map<Square, Piece>, s: Square)
    ensures s in Captures(color, position, offsets, squares) <==>
      exists i :: 0 <= i < |offsets| && s in CaptureTarget(color, position, offsets[i], squares)
  {
    if offsets != [] {
      var n := |offsets| - 1;
      CapturesMember(color, position, offsets[..n], squares, s);
      if s in CaptureTarget(color, position, offsets[n], squares) {
      } else if exists i :: 0 <= i < |offsets| && s in CaptureTarget(color, position, offsets[i], squares) {
        var i :| 0 <= i < |offsets| && s in CaptureTarget(color, position, offsets[i], squares);
        assert offsets[..n][i] == offsets[i];
      }
    }
  }

  /**
   * Reference description of the pawn's moves: a square is a move iff it is
   * the single step, the double step from the starting rank, or a diagonal
   * capture of an enemy piece.
   */
  lemma MovesMember(color: Color, position: Square, squares: map<Square, Piece>, s: Square)
    ensures s in Moves(color, position, squares) <==>
      SingleStep(color, position, squares, s) || DoubleStep(color, position, squares, s) || DiagonalCapture(color, position, squares, s)
  {
    CapturesMember(color, position, CaptureOffsets(), squares, s);
    assert CaptureOffsets()[0] == -1 && CaptureOffsets()[1] == 1;
    if DoubleStep(color, position, squares, s) {
      assert OnBoard(Square(position.file, position.rank + Forward(color)));
    }
  }

  /**
   * Every pawn move goes forward for its color, by one rank or (the double
   * step) two.
   */
  lemma MovesGoForward(color: Color, position: Square, squares: map<Square, Piece>, s: Square)
    requires s in Moves(color, position, squares)
    ensures s.rank == position.rank + Forward(color) || s.rank == position.rank + 2 * Forward(color)
    ensures color == White ==> s.rank > position.rank
    ensures color == Black ==> s.rank < position.rank
  {
    MovesMember(color, position, squares, s);
  }

  /** The two capture squares, lower file first. */
  lemma CapturesOfTable(color: Color, position: Square, squares: map<Square, Piece>)
    ensures Captures(color, position, CaptureOffsets(), squares)
      == CaptureTarget(color, position, -1, squares) + CaptureTarget(color, position, 1, squares)
  {
    var offsets := CaptureOffsets();
    assert offsets[..1] == [-1] && offsets[..1][..0] == [];
    assert Captures(color, position, offsets[..1], squares) == CaptureTarget(color, position, -1, squares);
  }

  /** At most four moves: two forward, two captures. */
  lemma MovesBound(color: Color, position: Square, squares: map<Square, Piece>)
    ensures |Moves(color, position, squares)| <= 4
  {
    CapturesOfTable(color, position, squares);
  }

  /**
   * A pawn never captures straight ahead and never moves diagonally without
   * capturing: forward targets are empty, diagonal targets hold enemy pieces.
   */
  lemma ForwardOnlyEmptyDiagonalOnlyCapture(color: Color, position: Square, squares: map<Square, Piece>, s: Square)
    requires s in Moves(color, position, squares)
    ensures s.file == position.file ==> IsEmpty(squares, s)
    ensures s.file != position.file ==> HoldsColor(squares, s, Opponent(color))
  {
    MovesMember(color, position, squares, s);
  }

  // The positions of the pawn's unit tests.

  const E2 := Square(4, 1)
  const E3 := Square(4, 2)
  const E4 := Square(4, 3)
  const E5 := Square(4, 4)
  const E6 := Square(4, 5)
  const E7 := Square(4, 6)
  const D5 := Square(3, 4)
  const F5 := Square(5, 4)

  /** On an empty board a pawn off its starting rank has one move, forward for its color. */
  lemma SingleStepsOnEmptyBoard()
    ensures Moves(White, E4, map[]) == [E5]
    ensures Moves(Black, E5, map[]) == [E4]
  {
    CapturesOfTable(White, E4, map[]);
    CapturesOfTable(Black, E5, map[]);
  }

  /** From the starting rank both one and two steps are available. */
  lemma DoubleStepsFromStartingRank()
    ensures Moves(White, E2, map[]) == [E3, E4]
    ensures Moves(Black, E7, map[]) == [E6, E5]
  {
    CapturesOfTable(White, E2, map[]);
    CapturesOfTable(Black, E7, map[]);
  }

  /** A piece right in front blocks both steps; a piece two ahead blocks only the double step. */
  lemma BlockedPawns()
    ensures Moves(White, E2, map[E3 := Piece(Knight, White, E3, false)]) == []
    ensures Moves(White, E2, map[E4 := Piece(Knight, White, E4, false)]) == [E3]
  {
    CapturesOfTable(White, E2, map[E3 := Piece(Knight, White, E3, false)]);
    CapturesOfTable(White, E2, map[E4 := Piece(Knight, White, E4, false)]);
  }

  /** Enemy pieces diagonally ahead are captured; one straight ahead blocks and cannot be taken. */
  lemma CapturesDiagonally()
    ensures Moves(White, E4, map[D5 := Piece(Pawn, Black, D5, false), F5 := Piece(Pawn, Black, F5, false)]) == [E5, D5, F5]
    ensures Moves(White, E4, map[E5 := Piece(Pawn, Black, E5, false)]) == []
  {
    CapturesOfTable(White, E4, map[D5 := Piece(Pawn, Black, D5, false), F5 := Piece(Pawn, Black, F5, false)]);
    CapturesOfTable(White, E4, map[E5 := Piece(Pawn, Black, E5, false)]);
  }

  /** Friendly pieces diagonally ahead are not captured. */
  lemma NoFriendlyCaptures()
    ensures Moves(White, E4, map[D5 := Piece(Knight, White, D5, false), F5 := Piece(Knight, White, F5, false)]) == [E5]
  {
    CapturesOfTable(White, E4, map[D5 := Piece(Knight, White, D5, false), F5 := Piece(Knight, White, F5, false)]);
  }
}
