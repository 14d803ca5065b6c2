/**
 * The king (frontend/src/engine/pieces/King.ts): the shared walker with all
 * eight unit steps and sliding switched off, a separate attack loop used for
 * attack detection, and castling.
 *
 * Castling consults the rest of the game through two questions the board
 * answers: whether the king's color is in check, and whether a square is
 * attacked by a given color. Both are out of this model and are parameters
 * here: `inCheck` is the board's answer for the king's color, `underAttack`
 * the board's attack test.
 */
module KingPiece {
  import opened Types
  import opened Utils
  import opened Boards
  import opened Stepping
  import opened PieceWalk

  /** King.getDirections: the eight unit steps, in the source's order. */
  function Directions(): (ds: seq<Direction>)
    ensures AllUnit(ds) && |ds| == 8
  {
    [(-1, 0), (1, 0), (0, 1), (0, -1), (-1, -1), (1, 1), (-1, 1), (1, -1)]
  }

  /** The table lists every unit step exactly once. */
  lemma DirectionsComplete()
    ensures forall d :: IsUnit(d) <==> d in Directions()
    ensures forall i, j :: 0 <= i < j < |Directions()| ==> Directions()[i] != Directions()[j]
  {
  }

  /** King.canSlide: the king moves one square at a time. */
  function CanSlide(): (slide: bool)
    ensures forall color, from, d, squares | IsUnit(d) :: |Ray(color, from, d, slide, squares)| <= 1
  {
    false
  }

  /** The walker's moves for the king (the base class's getLegalMoves). */
  function BaseMoves(color: Color, position: Square, squares: map<Square, Piece>): seq<Square> {
    Walk(color, position, Directions(), CanSlide(), squares)
  }

  /** The two squares are distinct and touch, orthogonally or diagonally. */
  predicate Adjacent(a: Square, b: Square) {
    a != b && -1 <= a.file - b.file <= 1 && -1 <= a.rank - b.rank <= 1
  }

  /** King.getAttackSquares: a loop over the same eight directions, one step each. */
  method GetAttackSquares(color: Color, position: Square, board: Boards.Board) returns (squares: seq<Square>)
    ensures squares == Steps(color, position, Directions(), board.squares)
  {
    var directions := Directions();
    squares := StepAll(color, position, directions, board);
  }

  /** The attack loop computes exactly the base moves, in the same order. */
  lemma AttackSquaresAreBaseMoves(color: Color, position: Square, squares: map<Square, Piece>)
    ensures Steps(color, position, Directions(), squares) == BaseMoves(color, position, squares)
  {
    WalkWithoutSlideIsSteps(color, position, Directions(), squares);
  }

  /** A square is a base move iff it touches the king, is on the board and is not friendly. */
  lemma BaseMovesMember(color: Color, position: Square, squares: map<Square, Piece>, s: Square)
    ensures s in BaseMoves(color, position, squares) <==>
      Adjacent(s, position) && OnBoard(s) && !HoldsColor(squares, s, color)
  {
    var ds := Directions();
    DirectionsComplete();
    WalkWithoutSlideIsSteps(color, position, ds, squares);
    StepsMember(color, position, ds, squares, s);
    if Adjacent(s, position) && OnBoard(s) && !HoldsColor(squares, s, color) {
      var d := (s.file - position.file, s.rank - position.rank);
      assert IsUnit(d);
      var i :| 0 <= i < |ds| && ds[i] == d;
      assert Reaches(color, position, ds[i], squares, s);
    }
  }

  /** At most eight base moves, none repeated. */
  lemma BaseMovesDistinct(color: Color, position: Square, squares: map<Square, Piece>)
    ensures |BaseMoves(color, position, squares)| <= 8
    ensures forall i, j :: 0 <= i < j < |BaseMoves(color, position, squares)| ==>
      BaseMoves(color, position, squares)[i] != BaseMoves(color, position, squares)[j]
  {
    DirectionsComplete();
    WalkWithoutSlideIsSteps(color, position, Directions(), squares);
    StepsNoDuplicates(color, position, Directions(), squares);
  }

  // Castling.

  /** The entry at sq is an unmoved rook of the given color. */
  predicate UnmovedRook(squares: map<Square, Piece>, sq: Square, color: Color) {
    PieceAt(squares, sq).Some? && PieceAt(squares, sq).value.kind == Rook
    && PieceAt(squares, sq).value.color == color && !PieceAt(squares, sq).value.hasMoved
  }

  /** No listed square has an entry. */
  predicate AllEmpty(squares: map<Square, Piece>, path: seq<Square>) {
    forall i :: 0 <= i < |path| ==> IsEmpty(squares, path[i])
  }

  /** No listed square is attacked by the given color. */
  predicate NoneAttacked(path: seq<Square>, attacker: Color, underAttack: (Square, Color) -> bool) {
    forall i :: 0 <= i < |path| ==> !underAttack(path[i], attacker)
  }

  /** The early exits: there is an entry at the king's square, it has not moved, and the king is not in check. */
  predicate CastlingAllowed(position: Square, squares: map<Square, Piece>, inCheck: bool) {
    PieceAt(squares, position).Some? && !PieceAt(squares, position).value.hasMoved && !inCheck
  }

  /** The two squares right of the king, nearest first. */
  function KingsidePath(position: Square): seq<Square> {
    [Square(position.file + 1, position.rank), Square(position.file + 2, position.rank)]
  }

  /** The three squares left of the king, nearest first. */
  function QueensidePath(position: Square): seq<Square> {
    [Square(position.file - 1, position.rank), Square(position.file - 2, position.rank), Square(position.file - 3, position.rank)]
  }

  /**
   * Kingside: an unmoved rook of the king's color on file h of the king's
   * rank, both squares between empty, and neither the king's square nor
   * the two it crosses attacked by the opponent.
   */
  predicate CanCastleKingside(color: Color, position: Square, squares: map<Square, Piece>, underAttack: (Square, Color) -> bool) {
    UnmovedRook(squares, Square(7, position.rank), color)
    && AllEmpty(squares, KingsidePath(position))
    && NoneAttacked([position] + KingsidePath(position), Opponent(color), underAttack)
  }

  /**
   * Queenside: an unmoved rook of the king's color on file a, the three
   * squares between empty, and the king's square and the two nearest
   * of them not attacked (the third, next to the rook, is not checked).
   */
  predicate CanCastleQueenside(color: Color, position: Square, squares: map<Square, Piece>, underAttack: (Square, Color) -> bool) {
    UnmovedRook(squares, Square(0, position.rank), color)
    && AllEmpty(squares, QueensidePath(position))
    && NoneAttacked([position] + QueensidePath(position)[..2], Opponent(color), underAttack)
  }

  /** The castling targets: kingside first, then queenside. */
  function CastlingMoves(color: Color, position: Square, squares: map<Square, Piece>, inCheck: bool, underAttack: (Square, Color) -> bool): seq<Square> {
    if !CastlingAllowed(position, squares, inCheck) then []
    else
      (if CanCastleKingside(color, position, squares, underAttack) then [Square(position.file + 2, position.rank)] else [])
      + (if CanCastleQueenside(color, position, squares, underAttack) then [Square(position.file - 2, position.rank)] else [])
  }

  /** King.getCastlingMoves. */
  method GetCastlingMoves(color: Color, position: Square, board: Boards.Board, inCheck: bool, underAttack: (Square, Color) -> bool)
    returns (moves: seq<Square>)
    ensures moves == CastlingMoves(color, position, board.squares, inCheck, underAttack)
  {
    moves := [];

    var kingPiece := board.GetPieceAt(position);
    if kingPiece.None? || kingPiece.value.hasMoved {
      return;
    }
    if inCheck {
      return;
    }

    var currentFile := position.file;
    var currentRank := position.rank;
    var opponentColor := if color == White then Black else White;
    assert opponentColor == Opponent(color);

    var kingsideRookFile := 7;
    var kingsideRookSquare := Square(kingsideRookFile, currentRank);
    var kingsideRook := board.GetPieceAt(kingsideRookSquare);
    if kingsideRook.Some? && kingsideRook.value.kind == Rook && kingsideRook.value.color == color && !kingsideRook.value.hasMoved {
      var squareBetween := [Square(currentFile + 1, currentRank), Square(currentFile + 2, currentRank)];
      var pathClear := AllEmpty(board.squares, squareBetween);
      if pathClear {
        var squaresToCheck := [position, squareBetween[0], squareBetween[1]];
        assert squareBetween == KingsidePath(position) && squaresToCheck == [position] + KingsidePath(position);
        var noCheckOnPath := NoneAttacked(squaresToCheck, opponentColor, underAttack);
        if noCheckOnPath {
          moves := moves + [squareBetween[1]];
        }
      }
    }

    var queensideRookFile := 0;
    var queensideRookSquare := Square(queensideRookFile, currentRank);
    var queensideRook := board.GetPieceAt(queensideRookSquare);
    if queensideRook.Some? && queensideRook.value.kind == Rook && queensideRook.value.color == color && !queensideRook.value.hasMoved {
      var squaresBetween := [Square(currentFile - 1, currentRank), Square(currentFile - 2, currentRank), Square(currentFile - 3, currentRank)];
      var pathClear := AllEmpty(board.squares, squaresBetween);
      if pathClear {
        var squaresToCheck := [position, squaresBetween[0], squaresBetween[1]];
        assert squaresBetween == QueensidePath(position) && squaresToCheck == [position] + QueensidePath(position)[..2];
        var noCheckOnPath := NoneAttacked(squaresToCheck, opponentColor, underAttack);
        if noCheckOnPath {
          moves := moves + [squaresBetween[1]];
        }
      }
    }
  }

  /** King.getLegalMoves: the base moves, followed by the castling moves when they are asked for. */
  function LegalMoves(color: Color, position: Square, squares: map<Square, Piece>, includeCastling: bool,
                      inCheck: bool, underAttack: (Square, Color) -> bool): seq<Square> {
    if includeCastling then BaseMoves(color, position, squares) + CastlingMoves(color, position, squares, inCheck, underAttack)
    else BaseMoves(color, position, squares)
  }

  method GetLegalMoves(color: Color, position: Square, board: Boards.Board, includeCastling: bool,
                       inCheck: bool, underAttack: (Square, Color) -> bool) returns (moves: seq<Square>)
    ensures moves == LegalMoves(color, position, board.squares, includeCastling, inCheck, underAttack)
  {
    var baseMoves := PieceWalk.GetLegalMoves(color, position, Directions(), CanSlide(), board);
    if includeCastling {
      var castlingMoves := GetCastlingMoves(color, position, board, inCheck, underAttack);
      return baseMoves + castlingMoves;
    }
    return baseMoves;
  }

  /** King.isCastlingMove: the target lies two files from the king, whatever its rank. */
  function IsCastlingMove(position: Square, target: Square): (castling: bool)
    ensures castling ==> target != position && !Adjacent(target, position)
  {
    target.file - position.file == 2 || position.file - target.file == 2
  }

  /**
   * Reference description of castling: a square is a castling target iff
   * the early exits pass and it is either two files right of the king with
   * kingside castling possible, or two files left with queenside possible.
   */
  lemma CastlingMovesMember(color: Color, position: Square, squares: map<Square, Piece>, inCheck: bool,
                            underAttack: (Square, Color) -> bool, s: Square)
    ensures s in CastlingMoves(color, position, squares, inCheck, underAttack) <==>
      CastlingAllowed(position, squares, inCheck)
      && ((s == Square(position.file + 2, position.rank) && CanCastleKingside(color, position, squares, underAttack))
       || (s == Square(position.file - 2, position.rank) && CanCastleQueenside(color, position, squares, underAttack)))
  {
  }

  /**
   * When the king's square holds a king on the board, castling targets are
   * on the board, on the king's rank and two files away; at most one per
   * side. Castling kingside is only possible from files a to e and
   * queenside only from files e to h, because otherwise the rook's own
   * square is on the path, or is the king's square.
   */
  lemma CastlingTargetsOnBoard(color: Color, position: Square, squares: map<Square, Piece>, inCheck: bool,
                               underAttack: (Square, Color) -> bool)
    requires OnBoard(position) && position in squares && squares[position].kind == King
    ensures |CastlingMoves(color, position, squares, inCheck, underAttack)| <= 2
    ensures CanCastleKingside(color, position, squares, underAttack) ==> position.file <= 4
    ensures CanCastleQueenside(color, position, squares, underAttack) ==> position.file >= 4
    ensures forall s :: s in CastlingMoves(color, position, squares, inCheck, underAttack) ==>
      OnBoard(s) && s.rank == position.rank && IsCastlingMove(position, s)
  {
    if CanCastleKingside(color, position, squares, underAttack) {
      // the rook's square is not among the empty ones, nor the king's own square
      assert IsEmpty(squares, KingsidePath(position)[0]) && IsEmpty(squares, KingsidePath(position)[1]);
    }
    if CanCastleQueenside(color, position, squares, underAttack) {
      assert IsEmpty(squares, QueensidePath(position)[0]) && IsEmpty(squares, QueensidePath(position)[1])
        && IsEmpty(squares, QueensidePath(position)[2]);
    }
  }

  /**
   * Whatever stands on the king's square, castling offers at most two
   * targets, both on the king's rank and two files away.
   */
  lemma CastlingTargetsShape(color: Color, position: Square, squares: map<Square, Piece>, inCheck: bool,
                             underAttack: (Square, Color) -> bool)
    ensures |CastlingMoves(color, position, squares, inCheck, underAttack)| <= 2
    ensures forall s :: s in CastlingMoves(color, position, squares, inCheck, underAttack) ==>
      s.rank == position.rank && IsCastlingMove(position, s)
  {
    forall s | s in CastlingMoves(color, position, squares, inCheck, underAttack)
      ensures s.rank == position.rank && IsCastlingMove(position, s)
    {
      CastlingMovesMember(color, position, squares, inCheck, underAttack, s);
    }
  }

  /** Castling targets are castling moves; base moves never are. */
  lemma IsCastlingMoveSeparates(color: Color, position: Square, squares: map<Square, Piece>, inCheck: bool,
                                underAttack: (Square, Color) -> bool, s: Square)
    ensures s in CastlingMoves(color, position, squares, inCheck, underAttack) ==> IsCastlingMove(position, s)
    ensures s in BaseMoves(color, position, squares) ==> !IsCastlingMove(position, s)
  {
    BaseMovesMember(color, position, squares, s);
  }

  /**
   * With castling included, the king's moves are its base moves and its
   * castling targets; isCastlingMove tells exactly which of the two a move is.
   */
  lemma LegalMovesMember(color: Color, position: Square, squares: map<Square, Piece>, inCheck: bool,
                         underAttack: (Square, Color) -> bool, s: Square)
    ensures s in LegalMoves(color, position, squares, true, inCheck, underAttack) <==>
      s in BaseMoves(color, position, squares) || s in CastlingMoves(color, position, squares, inCheck, underAttack)
    ensures s in LegalMoves(color, position, squares, true, inCheck, underAttack) ==>
      (IsCastlingMove(position, s) <==> s in CastlingMoves(color, position, squares, inCheck, underAttack))
    ensures s in LegalMoves(color, position, squares, false, inCheck, underAttack) <==> s in BaseMoves(color, position, squares)
  {
    IsCastlingMoveSeparates(color, position, squares, inCheck, underAttack, s);
  }

  /** The board the constructor sets up has no rooks, so no king can castle from it. */
  lemma NoCastlingFromStartingSquares(color: Color, position: Square, inCheck: bool, underAttack: (Square, Color) -> bool)
    ensures CastlingMoves(color, position, StartingSquares(), inCheck, underAttack) == []
  {
    var m := StartingSquares();
    assert !UnmovedRook(m, Square(7, position.rank), color);
    assert !UnmovedRook(m, Square(0, position.rank), color);
  }

  // The positions of the king's unit tests.

  const G1 := Square(6, 0)
  const C1 := Square(2, 0)
  const F1 := Square(5, 0)
  const H1 := Square(7, 0)
  const A1 := Square(0, 0)

  /** An attack test under which no square is attacked. */
  function NoAttacks(): (Square, Color) -> bool {
    (sq: Square, c: Color) => false
  }

  /** An attack test under which black attacks the target square and nothing else. */
  function AttackedOnly(target: Square): (Square, Color) -> bool {
    (sq: Square, c: Color) => sq == target && c == Black
  }

  /** Pawns of one color on d5, e4 and c3, next to d4. */
  function Neighbours(color: Color): map<Square, Piece> {
    map[Square(3, 4) := Piece(Pawn, color, Square(3, 4), false), Square(4, 3) := Piece(Pawn, color, Square(4, 3), false),
        Square(2, 2) := Piece(Pawn, color, Square(2, 2), false)]
  }

  /**
   * A lone king on d4 (not itself on the board, as in the tests) has its
   * eight neighbours and no castling.
   */
  lemma LoneKingOnD4()
    ensures LegalMoves(White, D4, map[], true, false, NoAttacks())
      == [Square(2, 3), Square(4, 3), Square(3, 4), Square(3, 2), Square(2, 2), Square(4, 4), Square(2, 4), Square(4, 2)]
  {
    WalkWithoutSlideIsSteps(White, D4, Directions(), map[]);
    StepsAllOpen(White, D4, Directions(), map[]);
  }

  /** The base moves among friendly pawns on d5, e4 and c3, offset by offset. */
  lemma NeighbourBaseMoves()
    ensures BaseMoves(White, D4, Neighbours(White)) == [Square(2, 3), Square(3, 2), Square(4, 4), Square(2, 4), Square(4, 2)]
  {
    var m := Neighbours(White);
    WalkWithoutSlideIsSteps(White, D4, Directions(), m);
    StepsOfEight(White, D4, Directions(), m);
    assert StepTarget(White, D4, (-1, 0), m) == [Square(2, 3)];
    assert StepTarget(White, D4, (1, 0), m) == [];
    assert StepTarget(White, D4, (0, 1), m) == [];
    assert StepTarget(White, D4, (0, -1), m) == [Square(3, 2)];
    assert StepTarget(White, D4, (-1, -1), m) == [];
    assert StepTarget(White, D4, (1, 1), m) == [Square(4, 4)];
    assert StepTarget(White, D4, (-1, 1), m) == [Square(2, 4)];
    assert StepTarget(White, D4, (1, -1), m) == [Square(4, 2)];
  }

  /** Friendly pawns on d5, e4 and c3 remove those three moves. */
  lemma FriendlyNeighboursRemoved()
    ensures LegalMoves(White, D4, Neighbours(White), true, false, NoAttacks()) == [Square(2, 3), Square(3, 2), Square(4, 4), Square(2, 4), Square(4, 2)]
  {
    NeighbourBaseMoves();
    assert CastlingMoves(White, D4, Neighbours(White), false, NoAttacks()) == [];
  }

  /** Enemy pawns on the same squares can all be captured. */
  lemma EnemyNeighboursCaptured()
    ensures LegalMoves(White, D4, Neighbours(Black), true, false, NoAttacks())
      == LegalMoves(White, D4, map[], true, false, NoAttacks())
  {
    WalkWithoutSlideIsSteps(White, D4, Directions(), Neighbours(Black));
    WalkWithoutSlideIsSteps(White, D4, Directions(), map[]);
    StepsDependOnlyOnTargets(White, D4, Directions(), Neighbours(Black), map[]);
  }

  /** A king on e1 and rooks of the same color on the given squares, all with the given moved flags. */
  function Back(kingMoved: bool, rooks: set<Square>, rookMoved: bool): map<Square, Piece>
    requires E1 !in rooks
  {
    (map sq | sq in rooks :: Piece(Rook, White, sq, rookMoved))[E1 := Piece(King, White, E1, kingMoved)]
  }

  /** The three successful castlings of the tests: white kingside and queenside, black kingside. */
  lemma CastlingWhenConditionsMet()
    ensures CastlingMoves(White, E1, Back(false, {H1}, false), false, NoAttacks()) == [G1]
    ensures CastlingMoves(White, E1, Back(false, {A1}, false), false, NoAttacks()) == [C1]
    ensures CastlingMoves(Black, E8, map[E8 := Piece(King, Black, E8, false), Square(7, 7) := Piece(Rook, Black, Square(7, 7), false)],
                          false, NoAttacks()) == [Square(6, 7)]
  {
    assert KingsidePath(E1) == [F1, G1];
    assert QueensidePath(E1) == [D1, C1, Square(1, 0)];
    assert KingsidePath(E8) == [Square(5, 7), Square(6, 7)];
  }

  /** A moved king or rook, a piece in between, or a check on the start, crossing or end square rules castling out. */
  lemma NoCastlingWhenConditionsFail()
    ensures CastlingMoves(White, E1, Back(true, {H1}, false), false, NoAttacks()) == []
    ensures CastlingMoves(White, E1, Back(false, {H1}, true), false, NoAttacks()) == []
    ensures CastlingMoves(White, E1, Back(false, {H1}, false)[F1 := Piece(Bishop, White, F1, false)], false, NoAttacks()) == []
    ensures CastlingMoves(White, E1, Back(false, {H1}, false), true, NoAttacks()) == []
    ensures CastlingMoves(White, E1, Back(false, {H1}, false), false, AttackedOnly(F1)) == []
    ensures CastlingMoves(White, E1, Back(false, {H1}, false), false, AttackedOnly(G1)) == []
  {
    assert KingsidePath(E1) == [F1, G1];
    assert ([E1] + KingsidePath(E1))[1] == F1 && ([E1] + KingsidePath(E1))[2] == G1;
  }

  /** Queenside castling does not look at b1: an attack there does not prevent it. */
  lemma QueensideIgnoresB1()
    ensures CastlingMoves(White, E1, Back(false, {A1}, false), false, AttackedOnly(Square(1, 0))) == [C1]
  {
    assert QueensidePath(E1) == [D1, C1, Square(1, 0)];
  }

  /** isCastlingMove from e1: g1 and c1 are castling moves, f1 and d1 are not. */
  lemma DetectsCastlingMoves()
    ensures IsCastlingMove(E1, G1) && IsCastlingMove(E1, C1)
    ensures !IsCastlingMove(E1, F1) && !IsCastlingMove(E1, D1)
  {
  }
}
