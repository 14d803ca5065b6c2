/** The board: a sparse map from square to piece record (frontend/src/engine/Board.ts). */
module Boards {
  import opened Types
  import opened Utils

  /** Lookup in a board map: the stored piece, or None when the square has no entry. */
  function PieceAt(squares: map<Square, Piece>, square: Square): (p: Option<Piece>)
    ensures p.Some? <==> square in squares
    ensures p.Some? ==> p.value == squares[square]
  {
    if square in squares then Some(squares[square]) else None
  }

  predicate IsEmpty(squares: map<Square, Piece>, square: Square) {
    PieceAt(squares, square).None?
  }

  /** The square holds a piece of the given color. */
  predicate HoldsColor(squares: map<Square, Piece>, square: Square, color: Color) {
    PieceAt(squares, square).Some? && PieceAt(squares, square).value.color == color
  }

  const E1 := Square(4, 0)
  const D1 := Square(3, 0)
  const E8 := Square(4, 7)
  const D8 := Square(3, 7)

  /** The four entries the constructor seeds: both kings and both queens. */
  function StartingSquares(): map<Square, Piece> {
    map[
      E1 := Piece(King, White, E1, false),
      D1 := Piece(Queen, White, D1, false),
      E8 := Piece(King, Black, E8, false),
      D8 := Piece(Queen, Black, D8, false)
    ]
  }

  /** Exactly four entries: white king e1, white queen d1, black king e8, black queen d8. */
  lemma StartingSquaresContents()
    ensures StartingSquares().Keys == {Parse("e1"), Parse("d1"), Parse("e8"), Parse("d8")}
    ensures |StartingSquares()| == 4
    ensures PieceAt(StartingSquares(), Parse("e1")) == Some(Piece(King, White, Parse("e1"), false))
    ensures PieceAt(StartingSquares(), Parse("d1")) == Some(Piece(Queen, White, Parse("d1"), false))
    ensures PieceAt(StartingSquares(), Parse("e8")) == Some(Piece(King, Black, Parse("e8"), false))
    ensures PieceAt(StartingSquares(), Parse("d8")) == Some(Piece(Queen, Black, Parse("d8"), false))
  {
    assert Parse("e1") == E1 && Parse("d1") == D1 && Parse("e8") == E8 && Parse("d8") == D8;
    var m := StartingSquares();
    assert m.Keys == {E1, D1, E8, D8};
  }

  /** Every initial entry is unmoved and records the square it is stored under. */
  lemma StartingEntriesWellFormed()
    ensures forall s :: s in StartingSquares() ==>
      OnBoard(s) && StartingSquares()[s].position == s && !StartingSquares()[s].hasMoved
  {
  }

  /** Exactly one king of each color after construction. */
  lemma StartingKings()
    ensures (set s | s in StartingSquares() && StartingSquares()[s].kind == King && StartingSquares()[s].color == White) == {Parse("e1")}
    ensures (set s | s in StartingSquares() && StartingSquares()[s].kind == King && StartingSquares()[s].color == Black) == {Parse("e8")}
  {
  }

  /** Ranks 3 through 6 hold nothing after construction. */
  lemma StartingMiddleRanksEmpty(s: string)
    requires IsSquare(s) && '3' <= s[1] <= '6'
    ensures PieceAt(StartingSquares(), Parse(s)) == None
  {
  }

  class Board {
    var squares: map<Square, Piece>

    constructor ()
      ensures squares == StartingSquares()
    {
      squares := map[];
      new;
      InitializeBoard();
    }

    /** Seeds the kings and queens with one map update each. */
    method InitializeBoard()
      modifies this
      ensures squares == old(squares) + StartingSquares()
    {
      // white pieces (king, queen)
      squares := squares[E1 := Piece(King, White, E1, false)];
      squares := squares[D1 := Piece(Queen, White, D1, false)];
      // black pieces (king, queen)
      squares := squares[E8 := Piece(King, Black, E8, false)];
      squares := squares[D8 := Piece(Queen, Black, D8, false)];
    }

    /** Pure lookup: reads the map and changes nothing. */
    function GetPieceAt(square: Square): (p: Option<Piece>)
      reads this
      ensures p == PieceAt(squares, square)
    {
      if square in squares then Some(squares[square]) else None
    }
  }
}
