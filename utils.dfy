/**
 * Coordinate utilities: algebraic squares such as "e4" and their file and
 * rank indices, both 0..7 (a = 0 ... h = 7, 1 = 0 ... 8 = 7).
 */
module Utils {
  import opened Types

  /** A well-formed algebraic square: a file letter a..h then a rank digit 1..8. */
  predicate IsSquare(s: string) {
    |s| == 2 && 'a' <= s[0] <= 'h' && '1' <= s[1] <= '8'
  }

  /** File letter to index: the distance of its first character's code from 'a'. */
  function FileToIndex(file: string): (i: int)
    requires |file| > 0
    ensures 0 <= i <= 7 <==> 'a' <= file[0] <= 'h'
    ensures 'a' <= file[0] <= 'h' ==> "abcdefgh"[i] == file[0]
  {
    file[0] as int - 'a' as int
  }

  /** Index to file letter, for indices on the board. */
  function IndexToFile(index: int): (file: string)
    requires 0 <= index <= 7
    ensures |file| == 1 && 'a' <= file[0] <= 'h'
    ensures FileToIndex(file) == index
  {
    [('a' as int + index) as char]
  }

  /** Rank digit to index: the decimal value of the digit, minus one. */
  function RankToIndex(rank: string): (i: int)
    requires |rank| == 1 && '0' <= rank[0] <= '9'
    ensures 0 <= i <= 7 <==> '1' <= rank[0] <= '8'
    ensures '1' <= rank[0] <= '8' ==> "12345678"[i] == rank[0]
  {
    (rank[0] as int - '0' as int) - 1
  }

  /** Index to rank digit: the decimal text of index + 1. */
  function IndexToRank(index: int): (rank: string)
    requires 0 <= index <= 7
    ensures |rank| == 1 && '1' <= rank[0] <= '8'
    ensures RankToIndex(rank) == index
  {
    [('1' as int + index) as char]
  }

  /** Bounds check on file and rank indices: exactly the indices whose letter a + file and digit 1 + rank name a square. */
  predicate IsValidSquare(file: int, rank: int): (valid: bool)
    ensures valid <==> 'a' as int <= 'a' as int + file <= 'h' as int && '1' as int <= '1' as int + rank <= '8' as int
  {
    file >= 0 && file <= 7 && rank >= 0 && rank <= 7
  }

  /** Square notation from on-board indices; parsing it gives the indices back. */
  function ToSquare(fileIndex: int, rankIndex: int): (s: string)
    requires IsValidSquare(fileIndex, rankIndex)
    ensures IsSquare(s)
    ensures FileToIndex([s[0]]) == fileIndex && RankToIndex([s[1]]) == rankIndex
  {
    IndexToFile(fileIndex) + IndexToRank(rankIndex)
  }

  /** The file index of a square, as the generators compute it from `position[0]`. */
  function FileOf(s: string): (i: int)
    requires IsSquare(s)
    ensures 0 <= i <= 7
  {
    FileToIndex([s[0]])
  }

  /** The rank index of a square, as the generators compute it from `position[1]`. */
  function RankOf(s: string): (i: int)
    requires IsSquare(s)
    ensures 0 <= i <= 7
  {
    RankToIndex([s[1]])
  }

  /** Parsing a file letter a..h and building it again gives the letter back. */
  lemma FileLetterRoundTrip(file: string)
    requires |file| == 1 && 'a' <= file[0] <= 'h'
    ensures IndexToFile(FileToIndex(file)) == file
  {
  }

  /** Parsing a rank digit 1..8 and building it again gives the digit back. */
  lemma RankDigitRoundTrip(rank: string)
    requires |rank| == 1 && '1' <= rank[0] <= '8'
    ensures IndexToRank(RankToIndex(rank)) == rank
  {
  }

  /** Building a parsed square gives back the string. */
  lemma SquareRoundTrip(s: string)
    requires IsSquare(s)
    ensures ToSquare(FileOf(s), RankOf(s)) == s
  {
    var t := ToSquare(FileOf(s), RankOf(s));
    assert t[0] == s[0] && t[1] == s[1];
  }

  /** ToSquare is injective on on-board indices. */
  lemma ToSquareInjective(f1: int, r1: int, f2: int, r2: int)
    requires IsValidSquare(f1, r1) && IsValidSquare(f2, r2)
    requires ToSquare(f1, r1) == ToSquare(f2, r2)
    ensures f1 == f2 && r1 == r2
  {
  }

  /** The valid coordinates are exactly those of the well-formed squares. */
  lemma ValidSquareIffParsed(file: int, rank: int)
    ensures IsValidSquare(file, rank) <==> exists s :: IsSquare(s) && FileOf(s) == file && RankOf(s) == rank
  {
    if IsValidSquare(file, rank) {
      var s := ToSquare(file, rank);
      assert IsSquare(s) && FileOf(s) == file && RankOf(s) == rank;
    }
  }

  /** A square value whose indices are on the board. */
  predicate OnBoard(sq: Square) {
    IsValidSquare(sq.file, sq.rank)
  }

  /** The algebraic notation of an on-board square. */
  function Name(sq: Square): (s: string)
    requires OnBoard(sq)
    ensures IsSquare(s)
  {
    ToSquare(sq.file, sq.rank)
  }

  /** The square a well-formed notation names. */
  function Parse(s: string): (sq: Square)
    requires IsSquare(s)
    ensures OnBoard(sq)
  {
    Square(FileOf(s), RankOf(s))
  }

  /** Name and Parse are inverse bijections between on-board squares and well-formed notations. */
  lemma NameParseRoundTrip(sq: Square, s: string)
    ensures OnBoard(sq) ==> Parse(Name(sq)) == sq
    ensures IsSquare(s) ==> Name(Parse(s)) == s
  {
    if IsSquare(s) {
      SquareRoundTrip(s);
    }
  }
}
