/** Algebraic square names: a file letter followed by a rank digit, with 'a1'
    at row 7, column 0 and 'h8' at row 0, column 7. */
module Coordinates {
  import opened ChessBoard

  predicate IsDigit(ch: char)
  {
    '0' <= ch <= '9'
  }

  /** A coordinate string the conversion accepts without raising: at least two
      characters, the second a decimal digit. Characters after the second are ignored. */
  predicate Parsable(pos: string)
  {
    |pos| >= 2 && IsDigit(pos[1])
  }

  /** A file letter 'a'..'h' followed by a rank digit '1'..'8'. */
  predicate IsSquareName(pos: string)
  {
    |pos| == 2 && 'a' <= pos[0] <= 'h' && '1' <= pos[1] <= '8'
  }

  /** The (row, column) pair of a coordinate string. Any file letter and any
      rank digit are converted; out-of-range ones give an out-of-bounds square. */
  function ConvertPosition(pos: string): (s: Square)
    requires Parsable(pos)
    ensures InBounds(s) <==> 'a' <= pos[0] <= 'h' && '1' <= pos[1] <= '8'
  {
    Square(8 - (pos[1] as int - '0' as int), pos[0] as int - 'a' as int)
  }

  /** The algebraic name of an on-board square. */
  function SquareName(s: Square): (name: string)
    requires InBounds(s)
    ensures IsSquareName(name)
    ensures ConvertPosition(name) == s
  {
    [('a' as int + s.col) as char, ('0' as int + 8 - s.row) as char]
  }

  lemma CornerSquares()
    ensures ConvertPosition("a1") == Square(7, 0)
    ensures ConvertPosition("h8") == Square(0, 7)
    ensures ConvertPosition("e2") == Square(6, 4)
  {
  }

  /** Naming is the inverse of conversion on the 64 square names, so conversion is a
      bijection between the names and the on-board squares. */
  lemma NameOfConvertedSquare(pos: string)
    requires IsSquareName(pos)
    ensures InBounds(ConvertPosition(pos))
    ensures SquareName(ConvertPosition(pos)) == pos
  {
    var name := SquareName(ConvertPosition(pos));
    assert name[0] == pos[0] && name[1] == pos[1];
  }

  /** Two names that convert to the same square are the same name. */
  lemma ConvertInjective(p: string, q: string)
    requires IsSquareName(p) && IsSquareName(q)
    requires ConvertPosition(p) == ConvertPosition(q)
    ensures p == q
  {
    NameOfConvertedSquare(p);
    NameOfConvertedSquare(q);
  }

  /** Only the first two characters of a coordinate string matter. */
  lemma TrailingCharactersIgnored(pos: string)
    requires Parsable(pos)
    ensures Parsable(pos[..2]) && ConvertPosition(pos) == ConvertPosition(pos[..2])
  {
  }
}
