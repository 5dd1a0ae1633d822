/** Steps, rays and the geometry of straight lines on the board. A slider
    (rook, bishop, queen) moves along rays; a knight or king takes one fixed
    offset at a time. */
module Geometry {
  import opened ChessBoard

  datatype Dir = Dir(dr: int, dc: int)

  function Shift(s: Square, d: Dir): Square
  {
    Square(s.row + d.dr, s.col + d.dc)
  }

  /** The square `k` steps from `s` along `d`. */
  function Offset(s: Square, d: Dir, k: nat): Square
    decreases k
  {
    if k == 0 then s else Offset(Shift(s, d), d, k - 1)
  }

  /** One of the eight directions a slider may take. */
  predicate UnitDir(d: Dir)
  {
    -1 <= d.dr <= 1 && -1 <= d.dc <= 1 && (d.dr != 0 || d.dc != 0)
  }

  const Orthogonal: seq<Dir> := [Dir(0, 1), Dir(0, -1), Dir(1, 0), Dir(-1, 0)]
  const Diagonal: seq<Dir> := [Dir(1, 1), Dir(1, -1), Dir(-1, 1), Dir(-1, -1)]

  function Abs(x: int): nat
  {
    if x < 0 then -x else x
  }

  function Sign(x: int): int
  {
    if x > 0 then 1 else if x < 0 then -1 else 0
  }

  /** The unit step that leads from `from` towards `to`. */
  function Heading(from: Square, to: Square): Dir
  {
    Dir(Sign(to.row - from.row), Sign(to.col - from.col))
  }

  /** The number of king steps between two squares. */
  function Distance(from: Square, to: Square): nat
  {
    var r := Abs(to.row - from.row);
    var c := Abs(to.col - from.col);
    if r < c then c else r
  }

  /** Two distinct squares on one rank or one file. */
  predicate RookLine(from: Square, to: Square)
  {
    from != to && (from.row == to.row || from.col == to.col)
  }

  /** Two distinct squares on one diagonal. */
  predicate BishopLine(from: Square, to: Square)
  {
    from != to && Abs(to.row - from.row) == Abs(to.col - from.col)
  }

  lemma {:induction false} OffsetClosedForm(s: Square, d: Dir, k: nat)
    ensures Offset(s, d, k) == Square(s.row + k * d.dr, s.col + k * d.dc)
    decreases k
  {
    if k > 0 {
      OffsetClosedForm(Shift(s, d), d, k - 1);
      assert (k - 1) * d.dr + d.dr == k * d.dr;
      assert (k - 1) * d.dc + d.dc == k * d.dc;
    }
  }

  /** Walking `k >= 1` unit steps along `d` ends on a square whose heading from the
      start is `d` and whose distance from the start is `k`. */
  lemma OffsetGeometry(s: Square, d: Dir, k: nat)
    requires UnitDir(d) && 1 <= k
    ensures Heading(s, Offset(s, d, k)) == d
    ensures Distance(s, Offset(s, d, k)) == k
  {
    OffsetClosedForm(s, d, k);
    var t := Offset(s, d, k);
    if d.dr == 1 { assert t.row - s.row == k; }
    else if d.dr == -1 { assert t.row == s.row - k; }
    else { assert t.row - s.row == 0; }
    if d.dc == 1 { assert t.col - s.col == k; }
    else if d.dc == -1 { assert t.col == s.col - k; }
    else { assert t.col - s.col == 0; }
  }

  /** Every square on a rank, file or diagonal through `from` is reached by walking
      its distance along its heading. */
  lemma LineOffset(from: Square, to: Square)
    requires RookLine(from, to) || BishopLine(from, to)
    ensures UnitDir(Heading(from, to)) && 1 <= Distance(from, to)
    ensures to == Offset(from, Heading(from, to), Distance(from, to))
  {
    var d := Heading(from, to);
    var k := Distance(from, to);
    OffsetClosedForm(from, d, k);
    if d.dr == 1 { assert k * d.dr == to.row - from.row; }
    else if d.dr == -1 { assert k * d.dr == to.row - from.row; }
    else { assert k * d.dr == to.row - from.row; }
    if d.dc == 1 { assert k * d.dc == to.col - from.col; }
    else if d.dc == -1 { assert k * d.dc == to.col - from.col; }
    else { assert k * d.dc == to.col - from.col; }
  }

  lemma DirectionSets(d: Dir)
    requires UnitDir(d)
    ensures d in Orthogonal <==> d.dr == 0 || d.dc == 0
    ensures d in Diagonal <==> d.dr != 0 && d.dc != 0
  {
  }

  /** A measure that strictly drops with every step a ray takes on the board. */
  function Span(s: Square, d: Dir): nat
  {
    if !InBounds(s) then 0
    else
      (if d.dr > 0 then 8 - s.row else if d.dr < 0 then s.row + 1 else 0) +
      (if d.dc > 0 then 8 - s.col else if d.dc < 0 then s.col + 1 else 0)
  }

  /** The squares a slider of side `c` reaches along `d`, starting at `s`, the
      square next to the slider: empty squares are taken and passed, an opposing
      piece is taken and ends the ray, an own piece or the edge ends it untaken. */
  function Ray(b: Board, c: Color, s: Square, d: Dir): (ray: seq<Square>)
    requires ValidBoard(b) && UnitDir(d)
    ensures forall i :: 0 <= i < |ray| ==> ray[i] == Offset(s, d, i) && InBounds(ray[i])
    ensures forall i :: 0 <= i < |ray| - 1 ==> At(b, ray[i]).Empty?
    ensures |ray| > 0 ==> CanLand(c, At(b, ray[|ray| - 1]))
    decreases Span(s, d)
  {
    if !InBounds(s) then []
    else match At(b, s)
      case Empty =>
        var t := Shift(s, d);
        var rest := Ray(b, c, t, d);
        assert forall i :: 0 < i <= |rest| + 1 ==> Offset(s, d, i) == Offset(t, d, i - 1);
        [s] + rest
      case Piece(_, owner) => if owner != c then [s] else []
  }

  lemma RayLands(b: Board, c: Color, s: Square, d: Dir, p: Square)
    requires ValidBoard(b) && UnitDir(d)
    requires p in Ray(b, c, s, d)
    ensures InBounds(p) && CanLand(c, At(b, p))
  {
    var ray := Ray(b, c, s, d);
    var i :| 0 <= i < |ray| && ray[i] == p;
    if i < |ray| - 1 {
      assert At(b, ray[i]).Empty?;
    }
  }

  /** Every square strictly before step `k` along `d` is on the board and empty. */
  ghost predicate ClearPath(b: Board, s: Square, d: Dir, k: nat)
    requires ValidBoard(b)
  {
    forall j :: 0 < j < k ==> EmptyAt(b, Offset(s, d, j))
  }

  /** A slider of side `c` on `from` can reach `to` in `k` steps along `d`. */
  ghost predicate SlideHit(b: Board, c: Color, from: Square, d: Dir, k: nat, to: Square)
    requires ValidBoard(b)
  {
    && 1 <= k
    && to == Offset(from, d, k)
    && InBounds(to)
    && ClearPath(b, from, d, k)
    && CanLand(c, At(b, to))
  }

  lemma {:induction false} RayContains(b: Board, c: Color, s: Square, d: Dir, k: nat)
    requires ValidBoard(b) && UnitDir(d)
    requires forall j :: 0 <= j < k ==> EmptyAt(b, Offset(s, d, j))
    requires InBounds(Offset(s, d, k)) && CanLand(c, At(b, Offset(s, d, k)))
    ensures Offset(s, d, k) in Ray(b, c, s, d)
    decreases k
  {
    if k == 0 {
      assert Ray(b, c, s, d)[0] == s;
    } else {
      assert EmptyAt(b, Offset(s, d, 0));
      var t := Shift(s, d);
      forall j | 0 <= j < k - 1
        ensures EmptyAt(b, Offset(t, d, j))
      {
        assert Offset(s, d, j + 1) == Offset(t, d, j);
      }
      RayContains(b, c, t, d, k - 1);
      assert Ray(b, c, s, d) == [s] + Ray(b, c, t, d);
    }
  }

  /** Each square of the ray along `d` from the square next to `from` is reached
      over a clear path, at the step count its index gives. */
  lemma RayHit(b: Board, c: Color, from: Square, d: Dir, to: Square) returns (k: nat)
    requires ValidBoard(b) && UnitDir(d)
    requires to in Ray(b, c, Shift(from, d), d)
    ensures SlideHit(b, c, from, d, k, to)
  {
    var s := Shift(from, d);
    var ray := Ray(b, c, s, d);
    var i :| 0 <= i < |ray| && ray[i] == to;
    k := i + 1;
    assert Offset(from, d, k) == Offset(s, d, i);
    forall j | 0 < j < k
      ensures EmptyAt(b, Offset(from, d, j))
    {
      assert Offset(from, d, j) == Offset(s, d, j - 1) == ray[j - 1];
    }
    RayLands(b, c, s, d, to);
  }

  /** The ray along `d` from the square next to `from` holds exactly the squares a
      slider reaches over a clear path: each empty square up to the first occupied
      one, nothing beyond it, and that square itself exactly when it can be captured. */
  lemma RayReaches(b: Board, c: Color, from: Square, d: Dir, to: Square)
    requires ValidBoard(b) && UnitDir(d)
    ensures to in Ray(b, c, Shift(from, d), d) <==> exists k: nat :: SlideHit(b, c, from, d, k, to)
  {
    var s := Shift(from, d);
    if to in Ray(b, c, s, d) {
      var k := RayHit(b, c, from, d, to);
    }
    if exists k: nat :: SlideHit(b, c, from, d, k, to) {
      var k: nat :| SlideHit(b, c, from, d, k, to);
      forall j | 0 <= j < k - 1
        ensures EmptyAt(b, Offset(s, d, j))
      {
        assert Offset(from, d, j + 1) == Offset(s, d, j);
      }
      assert Offset(from, d, k) == Offset(s, d, k - 1);
      RayContains(b, c, s, d, k - 1);
    }
  }

  /** A ray stops at the first occupied square: with all squares before step `k`
      empty and step `k` occupied, the ray is exactly the first `k` squares, plus
      step `k` itself when it holds an opposing piece. */
  lemma {:induction false} RayStopsAtFirstPiece(b: Board, c: Color, s: Square, d: Dir, k: nat)
    requires ValidBoard(b) && UnitDir(d)
    requires forall j :: 0 <= j < k ==> EmptyAt(b, Offset(s, d, j))
    requires InBounds(Offset(s, d, k)) && At(b, Offset(s, d, k)).Piece?
    ensures |Ray(b, c, s, d)| == if IsOpposing(c, At(b, Offset(s, d, k))) then k + 1 else k
    decreases k
  {
    if k > 0 {
      assert EmptyAt(b, Offset(s, d, 0));
      var t := Shift(s, d);
      forall j | 0 <= j < k - 1
        ensures EmptyAt(b, Offset(t, d, j))
      {
        assert Offset(s, d, j + 1) == Offset(t, d, j);
      }
      assert Offset(s, d, k) == Offset(t, d, k - 1);
      RayStopsAtFirstPiece(b, c, t, d, k - 1);
      assert Ray(b, c, s, d) == [s] + Ray(b, c, t, d);
    }
  }
}
