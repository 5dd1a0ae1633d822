/** The board state of the Fog of War chess engine: an 8x8 grid of cells with
    row 0 at the top (Black's home rank) and row 7 at the bottom (White's home
    rank). A cell is either empty or holds exactly one piece, given by its kind
    and its colour. */
module ChessBoard {

  datatype Color = White | Black

  /** The side that moves after `c`. */
  function Opponent(c: Color): (o: Color)
    ensures o != c
    ensures c == White <==> o == Black
  {
    if c == White then Black else White
  }

  datatype Kind = Pawn | Knight | Bishop | Rook | Queen | King

  /** A blank cell belongs to neither side. */
  datatype Cell = Empty | Piece(kind: Kind, color: Color)

  datatype Square = Square(row: int, col: int)

  type Board = seq<seq<Cell>>

  predicate ValidBoard(b: Board)
  {
    |b| == 8 && forall r :: 0 <= r < 8 ==> |b[r]| == 8
  }

  /** The bounds test of the engine: row and column each in [0, 7]. */
  predicate InBounds(s: Square)
  {
    0 <= s.row < 8 && 0 <= s.col < 8
  }

  function At(b: Board, s: Square): Cell
    requires ValidBoard(b) && InBounds(s)
  {
    b[s.row][s.col]
  }

  /** `x` holds a piece of side `c`. */
  predicate IsOwn(c: Color, x: Cell)
  {
    x.Piece? && x.color == c
  }

  /** `x` holds a piece of the side opposing `c`. */
  predicate IsOpposing(c: Color, x: Cell)
  {
    x.Piece? && x.color != c
  }

  /** A piece of side `c` may end its move on `x`: the cell is empty or can be captured. */
  predicate CanLand(c: Color, x: Cell)
  {
    x.Empty? || IsOpposing(c, x)
  }

  /** `s` is on the board and holds nothing. */
  predicate EmptyAt(b: Board, s: Square)
    requires ValidBoard(b)
  {
    InBounds(s) && At(b, s).Empty?
  }

  /** The board with `x` written into square `s`. */
  function Put(b: Board, s: Square, x: Cell): (b': Board)
    requires ValidBoard(b) && InBounds(s)
    ensures ValidBoard(b')
    ensures At(b', s) == x
    ensures forall t :: InBounds(t) && t != s ==> At(b', t) == At(b, t)
  {
    b[s.row := b[s.row][s.col := x]]
  }

  const EmptyRow: seq<Cell> := [Empty, Empty, Empty, Empty, Empty, Empty, Empty, Empty]

  function HomeRank(c: Color): seq<Cell>
  {
    [Piece(Rook, c), Piece(Knight, c), Piece(Bishop, c), Piece(Queen, c),
     Piece(King, c), Piece(Bishop, c), Piece(Knight, c), Piece(Rook, c)]
  }

  function PawnRank(c: Color): seq<Cell>
  {
    [Piece(Pawn, c), Piece(Pawn, c), Piece(Pawn, c), Piece(Pawn, c),
     Piece(Pawn, c), Piece(Pawn, c), Piece(Pawn, c), Piece(Pawn, c)]
  }

  /** The standard starting layout: Black on rows 0-1, White on rows 6-7. */
  function InitialBoard(): (b: Board)
    ensures ValidBoard(b)
    ensures forall r, c :: 2 <= r < 6 && 0 <= c < 8 ==> b[r][c] == Empty
    ensures forall c :: 0 <= c < 8 ==> b[1][c] == Piece(Pawn, Black) && b[6][c] == Piece(Pawn, White)
    ensures forall c :: 0 <= c < 8 ==> IsOwn(Black, b[0][c]) && IsOwn(White, b[7][c])
    ensures b[0][4] == Piece(King, Black) && b[7][4] == Piece(King, White)
  {
    [HomeRank(Black), PawnRank(Black), EmptyRow, EmptyRow,
     EmptyRow, EmptyRow, PawnRank(White), HomeRank(White)]
  }

  /** 1 for a cell that holds a piece, 0 for a blank. */
  function Occupancy(x: Cell): nat
  {
    if x.Piece? then 1 else 0
  }

  function RowCount(row: seq<Cell>): nat
  {
    if row == [] then 0 else Occupancy(row[0]) + RowCount(row[1..])
  }

  /** The number of pieces on the board. */
  function PieceCount(b: Board): nat
  {
    if b == [] then 0 else RowCount(b[0]) + PieceCount(b[1..])
  }

  /** Writing one cell of a row changes its count by the difference of the two occupancies. */
  lemma {:induction false} RowCountUpdate(row: seq<Cell>, j: int, x: Cell)
    requires 0 <= j < |row|
    ensures RowCount(row[j := x]) == RowCount(row) - Occupancy(row[j]) + Occupancy(x)
  {
    if j == 0 {
      assert row[j := x][1..] == row[1..];
    } else {
      assert row[j := x][1..] == row[1..][j - 1 := x];
      RowCountUpdate(row[1..], j - 1, x);
    }
  }

  lemma {:induction false} PieceCountRowUpdate(b: Board, i: int, row: seq<Cell>)
    requires 0 <= i < |b|
    ensures PieceCount(b[i := row]) == PieceCount(b) - RowCount(b[i]) + RowCount(row)
  {
    if i == 0 {
      assert b[i := row][1..] == b[1..];
    } else {
      assert b[i := row][1..] == b[1..][i - 1 := row];
      PieceCountRowUpdate(b[1..], i - 1, row);
    }
  }

  /** Writing `x` into one square changes the piece count by the difference of occupancies. */
  lemma PutCount(b: Board, s: Square, x: Cell)
    requires ValidBoard(b) && InBounds(s)
    ensures PieceCount(Put(b, s, x)) == PieceCount(b) - Occupancy(At(b, s)) + Occupancy(x)
  {
    RowCountUpdate(b[s.row], s.col, x);
    PieceCountRowUpdate(b, s.row, b[s.row][s.col := x]);
  }
}
