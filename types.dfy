/** The piece record and its enumerations (frontend/src/engine/types.ts). */
module Types {

  /** `null` in the source becomes `None`. */
  datatype Option<T> = None | Some(value: T)

  /**
   * A square. The source names squares by their algebraic notation ("e4");
   * the model keys the board by the (file, rank) index pair that the notation
   * encodes, 0..7 each. Utils converts between the two and proves the
   * correspondence one-to-one on the board.
   */
  datatype Square = Square(file: int, rank: int)

  /** The square reached by adding an offset (file change, rank change) to sq. */
  function Shift(sq: Square, o: (int, int)): Square {
    Square(sq.file + o.0, sq.rank + o.1)
  }

  /** d4, the starting square of several pieces' unit tests. */
  const D4 := Square(3, 3)

  datatype Color = White | Black

  datatype PieceType = Pawn | Knight | Bishop | Rook | Queen | King

  /** The record stored on a board square; the source's field `type` is called `kind` here. */
  datatype Piece = Piece(kind: PieceType, color: Color, position: Square, hasMoved: bool)

  /** The other side: the `this.color === 'white' ? 'black' : 'white'` of the castling code. */
  function Opponent(c: Color): (o: Color)
    ensures o != c
  {
    if c == White then Black else White
  }

  /** Concatenation regroups; the loops that append to a result use it. */
  lemma ConcatAssoc<T>(a: seq<T>, b: seq<T>, c: seq<T>)
    ensures (a + b) + c == a + (b + c)
  {
  }
}
