/**
 * The common shape of the offset-table loops in Knight.getLegalMoves and
 * King.getAttackSquares: for each offset in order, the target square is
 * kept when it is on the board and does not hold a piece of the mover's color.
 */
module Stepping {
  import opened Types
  import opened Utils
  import opened Boards

  type Offset = (int, int)

  /** What one offset contributes: its target, or nothing. */
  function StepTarget(color: Color, origin: Square, o: Offset, squares: map<Square, Piece>): (t: seq<Square>)
    ensures |t| <= 1
  {
    if OnBoard(Shift(origin, o)) && !HoldsColor(squares, Shift(origin, o), color) then [Shift(origin, o)] else []
  }

  /** The targets of all offsets, in table order. */
  function Steps(color: Color, origin: Square, offsets: seq<Offset>, squares: map<Square, Piece>): (moves: seq<Square>)
    ensures |moves| <= |offsets|
    ensures forall j :: 0 <= j < |moves| ==> OnBoard(moves[j]) && !HoldsColor(squares, moves[j], color)
  {
    if offsets == [] then []
    else Steps(color, origin, offsets[..|offsets| - 1], squares)
         + StepTarget(color, origin, offsets[|offsets| - 1], squares)
  }

  /** One iteration of an offset-table loop: the next offset's target, if any, is appended. */
  lemma StepsExtend(color: Color, origin: Square, offsets: seq<Offset>, i: nat, squares: map<Square, Piece>,
                    moves: seq<Square>, step: seq<Square>)
    requires i < |offsets|
    requires moves == Steps(color, origin, offsets[..i], squares)
    requires step == StepTarget(color, origin, offsets[i], squares)
    ensures moves + step == Steps(color, origin, offsets[..i + 1], squares)
  {
    assert offsets[..i + 1][..i] == offsets[..i];
  }

  /**
   * The loop of Knight.getLegalMoves and King.getAttackSquares, written
   * identically in both: each offset's target is pushed when it is on the
   * board and empty or held by an enemy.
   */
  method StepAll(color: Color, origin: Square, offsets: seq<Offset>, board: Boards.Board) returns (moves: seq<Square>)
    ensures moves == Steps(color, origin, offsets, board.squares)
  {
    moves := [];
    var currentFile := origin.file;
    var currentRank := origin.rank;

    for i := 0 to |offsets|
      invariant moves == Steps(color, origin, offsets[..i], board.squares)
    {
      var (fileOffset, rankOffset) := offsets[i];
      var targetFile := currentFile + fileOffset;
      var targetRank := currentRank + rankOffset;
      assert Square(targetFile, targetRank) == Shift(origin, offsets[i]);
      ghost var previous := moves;

      if IsValidSquare(targetFile, targetRank) {
        var targetSquare := Square(targetFile, targetRank);
        var pieceAtTarget := board.GetPieceAt(targetSquare);
        if pieceAtTarget.None? || pieceAtTarget.value.color != color {
          moves := moves + [targetSquare];
        }
      }
      assert moves == previous + StepTarget(color, origin, offsets[i], board.squares);
      StepsExtend(color, origin, offsets, i, board.squares, previous, StepTarget(color, origin, offsets[i], board.squares));
    }
    assert offsets[..|offsets|] == offsets;
  }

  /** Offset o from origin lands on the board at square s, and s is not friendly. */
  predicate Reaches(color: Color, origin: Square, o: Offset, squares: map<Square, Piece>, s: Square) {
    OnBoard(s) && s == Shift(origin, o) && !HoldsColor(squares, s, color)
  }

  /** The two boards agree on whether the target of offset o is friendly. */
  predicate AgreeOnTarget(color: Color, origin: Square, o: Offset, a: map<Square, Piece>, b: map<Square, Piece>) {
    OnBoard(Shift(origin, o)) ==> HoldsColor(a, Shift(origin, o), color) == HoldsColor(b, Shift(origin, o), color)
  }

  lemma StepTargetMember(color: Color, origin: Square, o: Offset, squares: map<Square, Piece>, s: Square)
    ensures s in StepTarget(color, origin, o, squares) <==> Reaches(color, origin, o, squares, s)
  {
  }

  /** A square is a target iff some offset reaches it on the board and it is not friendly. */
  lemma {:induction false} StepsMember(color: Color, origin: Square, offsets: seq<Offset>, squares: map<Square, Piece>, s: Square)
    ensures s in Steps(color, origin, offsets, squares) <==>
      exists i :: 0 <= i < |offsets| && Reaches(color, origin, offsets[i], squares, s)
  {
    if offsets != [] {
      var n := |offsets| - 1;
      var init := offsets[..n];
      StepsMember(color, origin, init, squares, s);
      StepTargetMember(color, origin, offsets[n], squares, s);
      assert Steps(color, origin, offsets, squares)
        == Steps(color, origin, init, squares) + StepTarget(color, origin, offsets[n], squares);
      if s in Steps(color, origin, offsets, squares) {
        if s !in StepTarget(color, origin, offsets[n], squares) {
          var i :| 0 <= i < |init| && Reaches(color, origin, init[i], squares, s);
          assert offsets[i] == init[i];
        }
      } else {
        forall i | 0 <= i < |offsets| ensures !Reaches(color, origin, offsets[i], squares, s) {
          if i < n {
            assert offsets[i] == init[i];
          }
        }
      }
    }
  }

  /** When every offset lands on an open square, every offset contributes its target, in order. */
  lemma {:induction false} StepsAllOpen(color: Color, origin: Square, offsets: seq<Offset>, squares: map<Square, Piece>)
    requires forall i :: 0 <= i < |offsets| ==>
      OnBoard(Shift(origin, offsets[i])) && !HoldsColor(squares, Shift(origin, offsets[i]), color)
    ensures |Steps(color, origin, offsets, squares)| == |offsets|
    ensures forall i :: 0 <= i < |offsets| ==> Steps(color, origin, offsets, squares)[i] == Shift(origin, offsets[i])
  {
    if offsets != [] {
      var n := |offsets| - 1;
      var init := offsets[..n];
      assert forall i :: 0 <= i < |init| ==> init[i] == offsets[i];
      StepsAllOpen(color, origin, init, squares);
      assert StepTarget(color, origin, offsets[n], squares) == [Shift(origin, offsets[n])];
    }
  }

  /** An eight-entry table unfolded into the contributions of its offsets. */
  lemma StepsOfEight(color: Color, origin: Square, offsets: seq<Offset>, squares: map<Square, Piece>)
    requires |offsets| == 8
    ensures Steps(color, origin, offsets, squares) ==
      StepTarget(color, origin, offsets[0], squares) + StepTarget(color, origin, offsets[1], squares)
      + StepTarget(color, origin, offsets[2], squares) + StepTarget(color, origin, offsets[3], squares)
      + StepTarget(color, origin, offsets[4], squares) + StepTarget(color, origin, offsets[5], squares)
      + StepTarget(color, origin, offsets[6], squares) + StepTarget(color, origin, offsets[7], squares)
  {
    var p := offsets;
    assert p[..1][..0] == [];
    assert Steps(color, origin, p[..1], squares) == StepTarget(color, origin, p[0], squares);
    forall k | 1 <= k < 8
      ensures Steps(color, origin, p[..k + 1], squares)
        == Steps(color, origin, p[..k], squares) + StepTarget(color, origin, p[k], squares)
    {
      assert p[..k + 1][..k] == p[..k];
    }
    assert p[..8] == p;
  }

  /** Pairwise distinct offsets give pairwise distinct targets. */
  lemma {:induction false} StepsNoDuplicates(color: Color, origin: Square, offsets: seq<Offset>, squares: map<Square, Piece>)
    requires forall i, j :: 0 <= i < j < |offsets| ==> offsets[i] != offsets[j]
    ensures forall i, j :: 0 <= i < j < |Steps(color, origin, offsets, squares)| ==>
      Steps(color, origin, offsets, squares)[i] != Steps(color, origin, offsets, squares)[j]
  {
    if offsets != [] {
      var n := |offsets| - 1;
      var init := offsets[..n];
      var o := offsets[n];
      StepsNoDuplicates(color, origin, init, squares);
      var prefix := Steps(color, origin, init, squares);
      var last := StepTarget(color, origin, o, squares);
      if last != [] {
        forall k | 0 <= k < |prefix| ensures prefix[k] != last[0] {
          StepsMember(color, origin, init, squares, prefix[k]);
          assert prefix[k] in prefix;
          var i :| 0 <= i < |init| && Reaches(color, origin, init[i], squares, prefix[k]);
          assert init[i] == offsets[i] && offsets[i] != o;
        }
      }
      var moves := prefix + last;
      assert moves == Steps(color, origin, offsets, squares);
      forall i, j | 0 <= i < j < |moves| ensures moves[i] != moves[j] {
        if j < |prefix| {
          assert moves[i] == prefix[i] && moves[j] == prefix[j];
        } else {
          assert moves[i] == prefix[i] && moves[j] == last[0];
        }
      }
    }
  }

  /** Only the target squares matter: boards that agree on them give the same targets. */
  lemma {:induction false} StepsDependOnlyOnTargets(color: Color, origin: Square, offsets: seq<Offset>, a: map<Square, Piece>, b: map<Square, Piece>)
    requires forall i :: 0 <= i < |offsets| ==> AgreeOnTarget(color, origin, offsets[i], a, b)
    ensures Steps(color, origin, offsets, a) == Steps(color, origin, offsets, b)
  {
    if offsets != [] {
      var n := |offsets| - 1;
      var init := offsets[..n];
      assert forall i :: 0 <= i < |init| ==> init[i] == offsets[i];
      StepsDependOnlyOnTargets(color, origin, init, a, b);
      assert AgreeOnTarget(color, origin, offsets[n], a, b);
    }
  }
}
