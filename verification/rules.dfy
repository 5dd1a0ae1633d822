/** The chess movement rules the generator follows, stated geometrically and
    independently of the order in which it enumerates squares, and the proof
    that the generator produces exactly the destinations they allow. */
module MoveRules {
  import opened ChessBoard
  import opened Geometry
  import opened MoveGen

  /** An L-shaped jump: two squares one way and one square the other. */
  predicate KnightJump(from: Square, to: Square)
  {
    var r := Abs(to.row - from.row);
    var c := Abs(to.col - from.col);
    (r == 1 && c == 2) || (r == 2 && c == 1)
  }

  /** One of the eight neighbouring squares. */
  predicate KingStep(from: Square, to: Square)
  {
    from != to && Abs(to.row - from.row) <= 1 && Abs(to.col - from.col) <= 1
  }

  /** Every square strictly between `from` and `to`, walking towards `to`, is empty. */
  ghost predicate ClearBetween(b: Board, from: Square, to: Square)
    requires ValidBoard(b)
  {
    ClearPath(b, from, Heading(from, to), Distance(from, to))
  }

  /** The piece on `from` may move to `to` under the rules of its kind. */
  ghost predicate Reaches(b: Board, from: Square, to: Square)
    requires ValidBoard(b) && InBounds(from)
  {
    match At(b, from)
    case Empty => false
    case Piece(kind, c) =>
      && InBounds(to)
      && CanLand(c, At(b, to))
      && match kind
         case Pawn => PawnReaches(b, from, c, to)
         case Knight => KnightJump(from, to)
         case King => KingStep(from, to)
         case Rook => RookLine(from, to) && ClearBetween(b, from, to)
         case Bishop => BishopLine(from, to) && ClearBetween(b, from, to)
         case Queen => (RookLine(from, to) || BishopLine(from, to)) && ClearBetween(b, from, to)
  }

  lemma KnightDestinations(b: Board, c: Color, from: Square, to: Square)
    requires ValidBoard(b)
    ensures to in Steps(b, from, c, KnightJumps) <==>
            KnightJump(from, to) && InBounds(to) && CanLand(c, At(b, to))
  {
    if KnightJump(from, to) && InBounds(to) && CanLand(c, At(b, to)) {
      var o := Dir(to.row - from.row, to.col - from.col);
      assert o in KnightJumps;
      assert StepHit(b, c, from, o, to);
    }
  }

  lemma KingDestinations(b: Board, c: Color, from: Square, to: Square)
    requires ValidBoard(b)
    ensures to in Steps(b, from, c, KingSteps) <==>
            KingStep(from, to) && InBounds(to) && CanLand(c, At(b, to))
  {
    if KingStep(from, to) && InBounds(to) && CanLand(c, At(b, to)) {
      var o := Dir(to.row - from.row, to.col - from.col);
      assert o in KingSteps;
      assert StepHit(b, c, from, o, to);
    }
  }

  /** A slider reaches `to` along the directions `dirs` exactly when `to` lies on the
      line through `from` headed in one of them, the squares between are empty, and
      `to` is empty or capturable. */
  lemma SlideDestinations(b: Board, c: Color, from: Square, to: Square, dirs: seq<Dir>)
    requires ValidBoard(b) && forall d :: d in dirs ==> UnitDir(d)
    ensures to in Slides(b, from, c, dirs) <==>
            && from != to
            && Heading(from, to) in dirs
            && to == Offset(from, Heading(from, to), Distance(from, to))
            && InBounds(to)
            && ClearBetween(b, from, to)
            && CanLand(c, At(b, to))
  {
    if to in Slides(b, from, c, dirs) {
      var d :| d in dirs && to in Ray(b, c, Shift(from, d), d);
      var k := RayHit(b, c, from, d, to);
      OffsetGeometry(from, d, k);
    }
    var d := Heading(from, to);
    var k := Distance(from, to);
    if && from != to && d in dirs && to == Offset(from, d, k)
       && InBounds(to) && ClearBetween(b, from, to) && CanLand(c, At(b, to))
    {
      assert SlideHit(b, c, from, d, k, to);
      RayReaches(b, c, from, d, to);
    }
  }

  lemma RookDestinations(b: Board, c: Color, from: Square, to: Square)
    requires ValidBoard(b)
    ensures to in Slides(b, from, c, Orthogonal) <==>
            RookLine(from, to) && InBounds(to) && ClearBetween(b, from, to) && CanLand(c, At(b, to))
  {
    SlideDestinations(b, c, from, to, Orthogonal);
    if RookLine(from, to) {
      LineOffset(from, to);
      DirectionSets(Heading(from, to));
    }
  }

  lemma BishopDestinations(b: Board, c: Color, from: Square, to: Square)
    requires ValidBoard(b)
    ensures to in Slides(b, from, c, Diagonal) <==>
            BishopLine(from, to) && InBounds(to) && ClearBetween(b, from, to) && CanLand(c, At(b, to))
  {
    SlideDestinations(b, c, from, to, Diagonal);
    var d := Heading(from, to);
    var k := Distance(from, to);
    if BishopLine(from, to) {
      LineOffset(from, to);
      DirectionSets(d);
    }
    if from != to && d in Diagonal && to == Offset(from, d, k) {
      OffsetClosedForm(from, d, k);
      assert Abs(k * d.dr) == k && Abs(k * d.dc) == k;
    }
  }

  lemma QueenDestinations(b: Board, c: Color, from: Square, to: Square)
    requires ValidBoard(b)
    ensures to in Slides(b, from, c, Orthogonal + Diagonal) <==>
            to in Slides(b, from, c, Orthogonal) || to in Slides(b, from, c, Diagonal)
  {
  }

  /** The generator and the rules agree: a square is among the generated
      destinations of the piece on `from` exactly when its rules allow the move. */
  lemma MovesFollowRules(b: Board, from: Square, to: Square)
    requires ValidBoard(b) && InBounds(from)
    ensures to in Moves(b, from) <==> Reaches(b, from, to)
  {
    match At(b, from)
    case Empty =>
    case Piece(kind, c) =>
      match kind
      case Pawn =>
      case Knight => KnightDestinations(b, c, from, to);
      case King => KingDestinations(b, c, from, to);
      case Rook => RookDestinations(b, c, from, to);
      case Bishop => BishopDestinations(b, c, from, to);
      case Queen =>
        QueenDestinations(b, c, from, to);
        RookDestinations(b, c, from, to);
        BishopDestinations(b, c, from, to);
  }

  /** Pawn destinations straight ahead are empty; the double step is made only
      from the start row over an empty square; diagonal steps only capture. */
  lemma PawnRules(b: Board, s: Square, p: Square)
    requires ValidBoard(b) && InBounds(s) && At(b, s).Piece? && At(b, s).kind == Pawn
    requires p in Moves(b, s)
    ensures var c := At(b, s).color;
      && (p.col == s.col ==> EmptyAt(b, p))
      && (p.row == s.row + 2 * Forward(c) ==>
            s.row == StartRow(c) && p.col == s.col && EmptyAt(b, Square(s.row + Forward(c), s.col)))
      && (p.col != s.col ==> p.row == s.row + Forward(c) && IsOpposing(c, At(b, p)))
  {
  }

  /** A pawn on its start row with both squares ahead empty has exactly two
      non-capturing destinations; anywhere else it has at most one. */
  lemma PawnPushCount(b: Board, s: Square)
    requires ValidBoard(b) && InBounds(s) && At(b, s).Piece? && At(b, s).kind == Pawn
    ensures var c := At(b, s).color;
      var pushes := PawnPushes(b, s, c);
      && (forall p :: p in pushes <==> p in Moves(b, s) && p.col == s.col)
      && ((s.row == StartRow(c) && EmptyAt(b, Square(s.row + Forward(c), s.col))
           && EmptyAt(b, Square(s.row + 2 * Forward(c), s.col))) ==> |pushes| == 2)
      && (s.row != StartRow(c) ==> |pushes| <= 1)
  {
  }
}
