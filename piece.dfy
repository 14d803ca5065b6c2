/**
 * The shared direction walker of frontend/src/engine/pieces/Piece.ts, used by
 * Bishop, Queen and King. From the piece's square it walks each direction in
 * turn: an off-board square ends the direction, a friendly piece ends it
 * without the square, an enemy piece ends it with the square, an empty square
 * is kept and, when the piece slides, the walk goes on.
 */
module PieceWalk {
  import opened Types
  import opened Utils
  import opened Boards
  import opened Stepping

  type Direction = (int, int)

  /** One of the eight unit steps: each component in -1..1, not both zero. */
  predicate IsUnit(d: Direction) {
    -1 <= d.0 <= 1 && -1 <= d.1 <= 1 && d != (0, 0)
  }

  predicate AllUnit(ds: seq<Direction>) {
    forall i :: 0 <= i < |ds| ==> IsUnit(ds[i])
  }

  /** Piece.canSlide: the default that Bishop and Queen inherit; King overrides it. */
  function CanSlide(): (slide: bool)
    ensures forall color, from, d, squares | IsUnit(d) && OnBoard(from) && IsEmpty(squares, from)
      && OnBoard(Shift(from, d)) && IsEmpty(squares, Shift(from, d)) :: |Ray(color, from, d, slide, squares)| >= 2
  {
    true
  }

  /** Steps left along dx before x leaves 0..7 (zero when dx is zero or x is already off). */
  function Room(x: int, dx: int): nat {
    if x < 0 || x > 7 then 0 else if dx > 0 then 8 - x else if dx < 0 then x + 1 else 0
  }

  /** The square k unit steps along d from sq. */
  function Along(sq: Square, d: Direction, k: nat): Square
    decreases k
  {
    if k == 0 then sq else Along(Shift(sq, d), d, k - 1)
  }

  /**
   * The squares one direction contributes, examining `from` first: the body of
   * the source's inner while loop.
   */
  function Ray(color: Color, from: Square, d: Direction, slide: bool, squares: map<Square, Piece>): seq<Square>
    requires IsUnit(d)
    decreases Room(from.file, d.0) + Room(from.rank, d.1)
  {
    if !OnBoard(from) then []
    else if IsEmpty(squares, from) then
      [from] + (if slide then Ray(color, Shift(from, d), d, slide, squares) else [])
    else if HoldsColor(squares, from, color) then []
    else [from]
  }

  /** All directions in order, each walked from one step beyond the origin. */
  function Walk(color: Color, origin: Square, directions: seq<Direction>, slide: bool, squares: map<Square, Piece>): seq<Square>
    requires AllUnit(directions)
  {
    if directions == [] then []
    else
      var d := directions[|directions| - 1];
      Walk(color, origin, directions[..|directions| - 1], slide, squares) + Ray(color, Shift(origin, d), d, slide, squares)
  }

  /** Piece.getLegalMoves: the walk from `position` over `directions`. */
  method GetLegalMoves(color: Color, position: Square, directions: seq<Direction>, canSlide: bool, board: Boards.Board)
    returns (moves: seq<Square>)
    requires AllUnit(directions)
    ensures moves == Walk(color, position, directions, canSlide, board.squares)
  {
    moves := [];
    var currentFile := position.file;
    var currentRank := position.rank;

    for i := 0 to |directions|
      invariant moves == Walk(color, position, directions[..i], canSlide, board.squares)
    {
      var (fileDir, rankDir) := directions[i];
      var file := currentFile + fileDir;
      var rank := currentRank + rankDir;
      ghost var d := directions[i];
      ghost var before := moves;
      var ray := Slide(color, file, rank, directions[i], canSlide, board);
      moves := moves + ray;
      assert Square(currentFile + fileDir, currentRank + rankDir) == Shift(position, d);
      WalkExtend(color, position, directions, i, canSlide, board.squares, before, ray);
    }
    assert directions[..|directions|] == directions;
  }

  /**
   * The inner while loop of Piece.getLegalMoves: one direction from
   * (file0, rank0), until the edge or the first piece, or after one square
   * when the piece cannot slide.
   */
  method Slide(color: Color, file0: int, rank0: int, d: Direction, canSlide: bool, board: Boards.Board)
    returns (moves: seq<Square>)
    requires IsUnit(d)
    ensures moves == Ray(color, Square(file0, rank0), d, canSlide, board.squares)
  {
    moves := [];
    var (fileDir, rankDir) := d;
    var file := file0;
    var rank := rank0;

    while IsValidSquare(file, rank)
      invariant moves + Ray(color, Square(file, rank), d, canSlide, board.squares)
        == Ray(color, Square(file0, rank0), d, canSlide, board.squares)
      decreases Room(file, fileDir) + Room(rank, rankDir)
    {
      var targetSquare := Square(file, rank);
      var pieceAtTarget := board.GetPieceAt(targetSquare);
      ghost var previous := moves;

      if pieceAtTarget.Some? {
        // blocked; an enemy piece is captured
        if pieceAtTarget.value.color != color {
          assert Ray(color, targetSquare, d, canSlide, board.squares) == [targetSquare];
          moves := moves + [targetSquare];
        } else {
          assert Ray(color, targetSquare, d, canSlide, board.squares) == [];
        }
        break;
      } else {
        assert IsEmpty(board.squares, targetSquare);
        moves := moves + [targetSquare];
      }

      if !canSlide {
        break;
      }

      assert Square(file + fileDir, rank + rankDir) == Shift(targetSquare, d);
      ConcatAssoc(previous, [targetSquare], Ray(color, Shift(targetSquare, d), d, canSlide, board.squares));
      file := file + fileDir;
      rank := rank + rankDir;
    }
  }

  /** One iteration of the outer loop: the next direction's ray is appended to the walk so far. */
  lemma WalkExtend(color: Color, origin: Square, directions: seq<Direction>, i: nat, slide: bool, squares: map<Square, Piece>,
                   moves: seq<Square>, ray: seq<Square>)
    requires AllUnit(directions) && i < |directions|
    requires moves == Walk(color, origin, directions[..i], slide, squares)
    requires ray == Ray(color, Shift(origin, directions[i]), directions[i], slide, squares)
    ensures moves + ray == Walk(color, origin, directions[..i + 1], slide, squares)
  {
    assert directions[..i + 1][..i] == directions[..i];
  }

  /** Along k + 1 steps is along k steps from the next square. */
  lemma AlongShift(sq: Square, d: Direction, k: nat)
    ensures Along(sq, d, k + 1) == Along(Shift(sq, d), d, k)
  {
  }

  /** k unit steps along d move the file by k * d.0 and the rank by k * d.1. */
  lemma {:induction false} AlongLinear(sq: Square, d: Direction, k: nat)
    ensures Along(sq, d, k) == Square(sq.file + k * d.0, sq.rank + k * d.1)
    decreases k
  {
    if k > 0 {
      AlongLinear(Shift(sq, d), d, k - 1);
    }
  }

  /** The ray is the run of consecutive squares k = 0, 1, ... along d, all on the board. */
  lemma {:induction false} RayAlong(color: Color, from: Square, d: Direction, slide: bool, squares: map<Square, Piece>)
    requires IsUnit(d)
    ensures forall j :: 0 <= j < |Ray(color, from, d, slide, squares)| ==>
      Ray(color, from, d, slide, squares)[j] == Along(from, d, j) && OnBoard(Along(from, d, j))
    decreases Room(from.file, d.0) + Room(from.rank, d.1)
  {
    var ray := Ray(color, from, d, slide, squares);
    if |ray| > 1 {
      var rest := Ray(color, Shift(from, d), d, slide, squares);
      RayAlong(color, Shift(from, d), d, slide, squares);
      assert ray == [from] + rest;
      forall j | 0 < j < |ray| ensures ray[j] == Along(from, d, j) && OnBoard(Along(from, d, j)) {
        assert ray[j] == rest[j - 1];
        AlongShift(from, d, j - 1);
      }
    }
  }

  /** Every square of the ray but the last is empty. */
  lemma {:induction false} RayEmptyBeforeLast(color: Color, from: Square, d: Direction, slide: bool, squares: map<Square, Piece>)
    requires IsUnit(d)
    ensures forall j :: 0 <= j < |Ray(color, from, d, slide, squares)| - 1 ==>
      IsEmpty(squares, Ray(color, from, d, slide, squares)[j])
    decreases Room(from.file, d.0) + Room(from.rank, d.1)
  {
    var ray := Ray(color, from, d, slide, squares);
    if |ray| > 1 {
      var rest := Ray(color, Shift(from, d), d, slide, squares);
      RayEmptyBeforeLast(color, Shift(from, d), d, slide, squares);
      assert ray == [from] + rest;
      forall j | 0 <= j < |ray| - 1 ensures IsEmpty(squares, ray[j]) {
        if j > 0 {
          assert ray[j] == rest[j - 1];
        }
      }
    }
  }

  /** The walk along d cannot go on at the square k steps out: off the board, or a friendly piece there. */
  predicate BlockedAt(color: Color, from: Square, d: Direction, k: nat, squares: map<Square, Piece>) {
    !OnBoard(Along(from, d, k)) || HoldsColor(squares, Along(from, d, k), color)
  }

  /**
   * The ray ends for a reason: its last square is occupied (by an enemy), or
   * the piece does not slide, or the next square is off the board or friendly.
   */
  lemma {:induction false} RayStops(color: Color, from: Square, d: Direction, slide: bool, squares: map<Square, Piece>)
    requires IsUnit(d)
    ensures || (|Ray(color, from, d, slide, squares)| > 0
                && !IsEmpty(squares, Ray(color, from, d, slide, squares)[|Ray(color, from, d, slide, squares)| - 1]))
            || (!slide && |Ray(color, from, d, slide, squares)| == 1)
            || BlockedAt(color, from, d, |Ray(color, from, d, slide, squares)|, squares)
    decreases Room(from.file, d.0) + Room(from.rank, d.1)
  {
    var ray := Ray(color, from, d, slide, squares);
    if OnBoard(from) && IsEmpty(squares, from) && slide {
      var rest := Ray(color, Shift(from, d), d, slide, squares);
      RayStops(color, Shift(from, d), d, slide, squares);
      assert ray == [from] + rest;
      AlongShift(from, d, |rest|);
      if |rest| > 0 {
        assert ray[|ray| - 1] == rest[|rest| - 1];
      }
    }
  }

  /**
   * Reference definition of what one direction contributes: the square k steps
   * out (k = 0 being the first square examined) is reached when the piece
   * slides or k is 0, it is on the board and not friendly, and every square
   * before it is on the board and empty.
   */
  predicate Visible(color: Color, from: Square, d: Direction, slide: bool, squares: map<Square, Piece>, k: nat) {
    && (slide || k == 0)
    && OnBoard(Along(from, d, k))
    && !HoldsColor(squares, Along(from, d, k), color)
    && forall m :: 0 <= m < k ==> OnBoard(Along(from, d, m)) && IsEmpty(squares, Along(from, d, m))
  }

  /** Visibility k + 1 steps out is visibility k steps out from the next square, past an empty one. */
  lemma VisibleStep(color: Color, from: Square, d: Direction, slide: bool, squares: map<Square, Piece>, k: nat)
    ensures Visible(color, from, d, slide, squares, k + 1) <==>
      slide && OnBoard(from) && IsEmpty(squares, from) && Visible(color, Shift(from, d), d, slide, squares, k)
  {
    var next := Shift(from, d);
    AlongShift(from, d, k);
    if Visible(color, next, d, slide, squares, k) && OnBoard(from) && IsEmpty(squares, from) {
      forall m | 0 <= m < k + 1 ensures OnBoard(Along(from, d, m)) && IsEmpty(squares, Along(from, d, m)) {
        if m > 0 {
          AlongShift(from, d, m - 1);
        }
      }
    }
    if Visible(color, from, d, slide, squares, k + 1) {
      assert Along(from, d, 0) == from;
      forall m | 0 <= m < k ensures OnBoard(Along(next, d, m)) && IsEmpty(squares, Along(next, d, m)) {
        AlongShift(from, d, m);
      }
    }
  }

  /** A square is in the ray exactly when it is the visible square some k steps out. */
  lemma {:induction false} RayMember(color: Color, from: Square, d: Direction, slide: bool, squares: map<Square, Piece>, s: Square)
    requires IsUnit(d)
    ensures s in Ray(color, from, d, slide, squares) <==>
      exists k: nat :: Visible(color, from, d, slide, squares, k) && s == Along(from, d, k)
    decreases Room(from.file, d.0) + Room(from.rank, d.1)
  {
    var ray := Ray(color, from, d, slide, squares);
    assert Along(from, d, 0) == from;
    if s == from && Visible(color, from, d, slide, squares, 0) {
      assert Visible(color, from, d, slide, squares, 0) && s == Along(from, d, 0);
    }
    if !OnBoard(from) {
      forall k: nat ensures !Visible(color, from, d, slide, squares, k) {
        if k > 0 {
          assert !OnBoard(Along(from, d, 0));
        }
      }
    } else if IsEmpty(squares, from) && slide {
      var next := Shift(from, d);
      RayMember(color, next, d, slide, squares, s);
      if s in Ray(color, next, d, slide, squares) {
        var k: nat :| Visible(color, next, d, slide, squares, k) && s == Along(next, d, k);
        VisibleStep(color, from, d, slide, squares, k);
        AlongShift(from, d, k);
      }
      if k: nat :| Visible(color, from, d, slide, squares, k) && s == Along(from, d, k) && k > 0 {
        VisibleStep(color, from, d, slide, squares, k - 1);
        AlongShift(from, d, k - 1);
      }
    } else {
      forall k: nat | k > 0 ensures !Visible(color, from, d, slide, squares, k) {
        VisibleStep(color, from, d, slide, squares, k - 1);
      }
    }
  }

  /** The concatenation of a sequence of sequences, in order. */
  function Flatten<T>(rs: seq<seq<T>>): seq<T> {
    if rs == [] then [] else Flatten(rs[..|rs| - 1]) + rs[|rs| - 1]
  }

  lemma {:induction false} FlattenAppend<T>(a: seq<seq<T>>, b: seq<seq<T>>)
    ensures Flatten(a + b) == Flatten(a) + Flatten(b)
    decreases |b|
  {
    if b != [] {
      var n := |b| - 1;
      assert (a + b)[..|a + b| - 1] == a + b[..n];
      FlattenAppend(a, b[..n]);
      ConcatAssoc(Flatten(a), Flatten(b[..n]), b[n]);
    } else {
      assert a + b == a;
    }
  }

  lemma {:induction false} FlattenMember<T>(rs: seq<seq<T>>, x: T)
    ensures x in Flatten(rs) <==> exists i :: 0 <= i < |rs| && x in rs[i]
  {
    if rs != [] {
      var n := |rs| - 1;
      FlattenMember(rs[..n], x);
      assert forall i :: 0 <= i < n ==> rs[..n][i] == rs[i];
    }
  }

  /** The ray of each direction, in order. */
  function Rays(color: Color, origin: Square, directions: seq<Direction>, slide: bool, squares: map<Square, Piece>): (rs: seq<seq<Square>>)
    requires AllUnit(directions)
    ensures |rs| == |directions|
    ensures forall i :: 0 <= i < |directions| ==> rs[i] == Ray(color, Shift(origin, directions[i]), directions[i], slide, squares)
  {
    if directions == [] then []
    else
      var d := directions[|directions| - 1];
      Rays(color, origin, directions[..|directions| - 1], slide, squares) + [Ray(color, Shift(origin, d), d, slide, squares)]
  }

  /** The walk is the concatenation of the rays. */
  lemma {:induction false} WalkIsFlatten(color: Color, origin: Square, directions: seq<Direction>, slide: bool, squares: map<Square, Piece>)
    requires AllUnit(directions)
    ensures Walk(color, origin, directions, slide, squares) == Flatten(Rays(color, origin, directions, slide, squares))
  {
    if directions != [] {
      var n := |directions| - 1;
      WalkIsFlatten(color, origin, directions[..n], slide, squares);
      var rs := Rays(color, origin, directions, slide, squares);
      assert rs[..n] == Rays(color, origin, directions[..n], slide, squares);
    }
  }

  /** A square is in the walk iff it is in the ray of one of the directions. */
  lemma WalkMember(color: Color, origin: Square, directions: seq<Direction>, slide: bool, squares: map<Square, Piece>, s: Square)
    requires AllUnit(directions)
    ensures s in Walk(color, origin, directions, slide, squares) <==>
      exists i :: 0 <= i < |directions| && s in Ray(color, Shift(origin, directions[i]), directions[i], slide, squares)
  {
    WalkIsFlatten(color, origin, directions, slide, squares);
    FlattenMember(Rays(color, origin, directions, slide, squares), s);
  }

  /** Walk membership depends only on the set of directions, not on their order. */
  lemma WalkMemberByDirection(color: Color, origin: Square, directions: seq<Direction>, slide: bool, squares: map<Square, Piece>, s: Square)
    requires AllUnit(directions)
    ensures s in Walk(color, origin, directions, slide, squares) <==>
      exists d :: d in directions && s in Ray(color, Shift(origin, d), d, slide, squares)
  {
    WalkMember(color, origin, directions, slide, squares, s);
  }

  /** A sliding ray whose first square is empty and whose second holds a friendly piece stops after one square. */
  lemma RayBlockedAfterOne(color: Color, from: Square, d: Direction, squares: map<Square, Piece>)
    requires IsUnit(d) && OnBoard(from) && IsEmpty(squares, from)
    requires OnBoard(Shift(from, d)) && HoldsColor(squares, Shift(from, d), color)
    ensures Ray(color, from, d, true, squares) == [from]
  {
  }

  /** A sliding ray whose first square is empty and whose second holds an enemy piece ends with that capture. */
  lemma RayCaptureAfterOne(color: Color, from: Square, d: Direction, squares: map<Square, Piece>)
    requires IsUnit(d) && OnBoard(from) && IsEmpty(squares, from)
    requires OnBoard(Shift(from, d)) && !IsEmpty(squares, Shift(from, d)) && !HoldsColor(squares, Shift(from, d), color)
    ensures Ray(color, from, d, true, squares) == [from, Shift(from, d)]
  {
  }

  /** A four-direction walk unfolded into its rays. */
  lemma WalkOfFour(color: Color, origin: Square, ds: seq<Direction>, slide: bool, squares: map<Square, Piece>)
    requires AllUnit(ds) && |ds| == 4
    ensures Walk(color, origin, ds, slide, squares)
      == Ray(color, Shift(origin, ds[0]), ds[0], slide, squares) + Ray(color, Shift(origin, ds[1]), ds[1], slide, squares)
       + Ray(color, Shift(origin, ds[2]), ds[2], slide, squares) + Ray(color, Shift(origin, ds[3]), ds[3], slide, squares)
  {
    assert ds[..3][..2] == ds[..2] && ds[..2][..1] == ds[..1] && ds[..1][..0] == [];
    assert Walk(color, origin, ds[..1], slide, squares) == Ray(color, Shift(origin, ds[0]), ds[0], slide, squares);
    assert Walk(color, origin, ds[..2], slide, squares) == Walk(color, origin, ds[..1], slide, squares) + Ray(color, Shift(origin, ds[1]), ds[1], slide, squares);
    assert Walk(color, origin, ds[..3], slide, squares) == Walk(color, origin, ds[..2], slide, squares) + Ray(color, Shift(origin, ds[2]), ds[2], slide, squares);
  }

  /** An eight-direction walk unfolded into the walks of its two halves. */
  lemma WalkOfEight(color: Color, origin: Square, ds: seq<Direction>, slide: bool, squares: map<Square, Piece>)
    requires AllUnit(ds) && |ds| == 8
    ensures Walk(color, origin, ds, slide, squares)
      == Walk(color, origin, ds[..4], slide, squares) + Walk(color, origin, ds[4..], slide, squares)
  {
    WalkIsFlatten(color, origin, ds, slide, squares);
    WalkIsFlatten(color, origin, ds[..4], slide, squares);
    WalkIsFlatten(color, origin, ds[4..], slide, squares);
    var rs := Rays(color, origin, ds, slide, squares);
    assert Rays(color, origin, ds[..4], slide, squares) == rs[..4];
    assert Rays(color, origin, ds[4..], slide, squares) == rs[4..];
    FlattenAppend(rs[..4], rs[4..]);
    assert rs[..4] + rs[4..] == rs;
  }

  /**
   * Reference description of the whole walk: a square is a target iff, for one
   * of the directions d, it is the visible square k + 1 steps beyond the origin.
   */
  lemma WalkMemberVisible(color: Color, origin: Square, directions: seq<Direction>, slide: bool, squares: map<Square, Piece>, s: Square)
    requires AllUnit(directions)
    ensures s in Walk(color, origin, directions, slide, squares) <==>
      exists i, k: nat :: 0 <= i < |directions|
        && Visible(color, Shift(origin, directions[i]), directions[i], slide, squares, k)
        && s == Along(Shift(origin, directions[i]), directions[i], k)
  {
    WalkMember(color, origin, directions, slide, squares, s);
    forall i | 0 <= i < |directions| {
      RayMember(color, Shift(origin, directions[i]), directions[i], slide, squares, s);
    }
  }

  /** Every target lies n >= 1 unit steps from the origin along one of the directions. */
  lemma WalkTargetAlong(color: Color, origin: Square, directions: seq<Direction>, slide: bool, squares: map<Square, Piece>, s: Square)
    requires AllUnit(directions)
    requires s in Walk(color, origin, directions, slide, squares)
    ensures exists i, n: nat :: 0 <= i < |directions| && 1 <= n && s == Along(origin, directions[i], n)
  {
    WalkMemberVisible(color, origin, directions, slide, squares, s);
    var i, k: nat :| 0 <= i < |directions| && Visible(color, Shift(origin, directions[i]), directions[i], slide, squares, k)
      && s == Along(Shift(origin, directions[i]), directions[i], k);
    AlongShift(origin, directions[i], k);
  }

  /** n steps of a unit component: n * x without multiplication. */
  lemma UnitTimes(n: nat, x: int)
    requires -1 <= x <= 1
    ensures n * x == (if x == 1 then n as int else if x == -1 then -(n as int) else 0)
  {
  }

  /** Every target is on the board and not occupied by a piece of the mover's color. */
  lemma WalkTargetsLegal(color: Color, origin: Square, directions: seq<Direction>, slide: bool, squares: map<Square, Piece>, s: Square)
    requires AllUnit(directions)
    requires s in Walk(color, origin, directions, slide, squares)
    ensures OnBoard(s) && !HoldsColor(squares, s, color)
  {
    WalkMemberVisible(color, origin, directions, slide, squares, s);
  }

  /** From an on-board origin each direction yields at most 7 squares, and at most one without sliding. */
  lemma RayBound(color: Color, origin: Square, d: Direction, slide: bool, squares: map<Square, Piece>)
    requires OnBoard(origin) && IsUnit(d)
    ensures |Ray(color, Shift(origin, d), d, slide, squares)| <= (if slide then 7 else 1)
  {
    var ray := Ray(color, Shift(origin, d), d, slide, squares);
    if slide && |ray| > 0 {
      RayAlong(color, Shift(origin, d), d, slide, squares);
      var j := |ray| - 1;
      AlongLinear(Shift(origin, d), d, j);
      UnitTimes(j, d.0);
      UnitTimes(j, d.1);
      assert OnBoard(ray[j]);
    }
  }

  /** Without sliding the walker is a plain offset table: the same squares in the same order. */
  lemma {:induction false} WalkWithoutSlideIsSteps(color: Color, origin: Square, directions: seq<Direction>, squares: map<Square, Piece>)
    requires AllUnit(directions)
    ensures Walk(color, origin, directions, false, squares) == Steps(color, origin, directions, squares)
  {
    if directions != [] {
      var n := |directions| - 1;
      var d := directions[n];
      WalkWithoutSlideIsSteps(color, origin, directions[..n], squares);
      assert Ray(color, Shift(origin, d), d, false, squares) == StepTarget(color, origin, d, squares);
    }
  }
}
