/** The move generator: for an occupied square, the ordered destinations its
    piece may move to, considering occupancy but not whose turn it is. */
module MoveGen {
  import opened ChessBoard
  import opened Geometry

  const KnightJumps: seq<Dir> :=
    [Dir(2, 1), Dir(2, -1), Dir(-2, 1), Dir(-2, -1),
     Dir(1, 2), Dir(1, -2), Dir(-1, 2), Dir(-1, -2)]

  const KingSteps: seq<Dir> :=
    [Dir(1, 0), Dir(-1, 0), Dir(0, 1), Dir(0, -1),
     Dir(1, 1), Dir(1, -1), Dir(-1, 1), Dir(-1, -1)]

  /** A piece of side `c` on `from` can step to `p` by the single offset `o`. */
  predicate StepHit(b: Board, c: Color, from: Square, o: Dir, p: Square)
    requires ValidBoard(b)
  {
    p == Shift(from, o) && InBounds(p) && CanLand(c, At(b, p))
  }

  /** The single-offset destinations of a knight or king, in the order of `offs`. */
  function Steps(b: Board, from: Square, c: Color, offs: seq<Dir>): (ms: seq<Square>)
    requires ValidBoard(b)
    ensures forall p :: p in ms <==> exists o :: o in offs && StepHit(b, c, from, o, p)
  {
    if offs == [] then []
    else
      var p := Shift(from, offs[0]);
      assert forall o :: o in offs <==> o == offs[0] || o in offs[1..];
      assert forall q :: StepHit(b, c, from, offs[0], q) ==> q == p;
      assert StepHit(b, c, from, offs[0], p) <==> InBounds(p) && CanLand(c, At(b, p));
      (if InBounds(p) && CanLand(c, At(b, p)) then [p] else []) + Steps(b, from, c, offs[1..])
  }

  /** The ray destinations of a slider on `from`, direction after direction. */
  function Slides(b: Board, from: Square, c: Color, dirs: seq<Dir>): (ms: seq<Square>)
    requires ValidBoard(b) && forall d :: d in dirs ==> UnitDir(d)
    ensures forall p :: p in ms <==> exists d :: d in dirs && p in Ray(b, c, Shift(from, d), d)
  {
    if dirs == [] then []
    else Ray(b, c, Shift(from, dirs[0]), dirs[0]) + Slides(b, from, c, dirs[1..])
  }

  /** The row step of a pawn: White moves towards row 0, Black towards row 7. */
  function Forward(c: Color): int
  {
    if c == White then -1 else 1
  }

  function StartRow(c: Color): int
  {
    if c == White then 6 else 1
  }

  /** The non-capturing pawn moves: one square ahead when it is empty, then a
      second one from the start row when that one is empty as well. */
  function PawnPushes(b: Board, s: Square, c: Color): seq<Square>
    requires ValidBoard(b) && InBounds(s)
  {
    var one := Square(s.row + Forward(c), s.col);
    if InBounds(one) && At(b, one).Empty? then
      // From the start row two steps ahead is always on the board.
      [one] + (if s.row == StartRow(c) && b[s.row + 2 * Forward(c)][s.col].Empty?
               then [Square(s.row + 2 * Forward(c), s.col)] else [])
    else []
  }

  function PawnCapture(b: Board, s: Square, c: Color, dc: int): seq<Square>
    requires ValidBoard(b)
  {
    var t := Square(s.row + Forward(c), s.col + dc);
    if InBounds(t) && IsOpposing(c, At(b, t)) then [t] else []
  }

  /** The pawn rules, stated square by square: a push onto an empty square ahead;
      a double push from the start row over an empty square onto an empty one; a
      diagonal step ahead onto an opposing piece. */
  ghost predicate PawnReaches(b: Board, s: Square, c: Color, p: Square)
    requires ValidBoard(b)
  {
    var f := Forward(c);
    || (p == Square(s.row + f, s.col) && EmptyAt(b, p))
    || (p == Square(s.row + 2 * f, s.col) && s.row == StartRow(c)
        && EmptyAt(b, Square(s.row + f, s.col)) && EmptyAt(b, p))
    || (p.row == s.row + f && Abs(p.col - s.col) == 1 && InBounds(p) && IsOpposing(c, At(b, p)))
  }

  function PawnMoves(b: Board, s: Square, c: Color): (ms: seq<Square>)
    requires ValidBoard(b) && InBounds(s)
    ensures forall p :: p in ms <==> PawnReaches(b, s, c, p)
  {
    PawnPushes(b, s, c) + PawnCapture(b, s, c, -1) + PawnCapture(b, s, c, 1)
  }

  /** Every slide destination is on the board and holds no piece of side `c`. */
  lemma SlidesLand(b: Board, s: Square, c: Color, dirs: seq<Dir>)
    requires ValidBoard(b) && forall d :: d in dirs ==> UnitDir(d)
    ensures forall p :: p in Slides(b, s, c, dirs) ==> InBounds(p) && CanLand(c, At(b, p))
  {
    forall p | p in Slides(b, s, c, dirs)
      ensures InBounds(p) && CanLand(c, At(b, p))
    {
      var d :| d in dirs && p in Ray(b, c, Shift(s, d), d);
      RayLands(b, c, Shift(s, d), d, p);
    }
  }

  /** The destinations of the piece on `s`; none for an empty square. */
  function Moves(b: Board, s: Square): (ms: seq<Square>)
    requires ValidBoard(b) && InBounds(s)
    ensures forall p :: p in ms ==> InBounds(p) && At(b, s).Piece? && CanLand(At(b, s).color, At(b, p))
    ensures s !in ms
  {
    match At(b, s)
    case Empty => []
    case Piece(kind, c) =>
      match kind
      case Pawn => PawnMoves(b, s, c)
      case Rook => SlidesLand(b, s, c, Orthogonal); Slides(b, s, c, Orthogonal)
      case Knight => Steps(b, s, c, KnightJumps)
      case Bishop => SlidesLand(b, s, c, Diagonal); Slides(b, s, c, Diagonal)
      case Queen => SlidesLand(b, s, c, Orthogonal + Diagonal); Slides(b, s, c, Orthogonal + Diagonal)
      case King => Steps(b, s, c, KingSteps)
  }
}
