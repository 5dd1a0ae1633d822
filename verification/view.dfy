/** The visibility projector: the board as one side sees it. A square is fogged
    unless a piece of that side stands on it or can move to it; the audience sees
    the true board. */
module Projector {
  import opened ChessBoard
  import opened MoveGen
  import opened Executor

  /** What a viewer knows of one square: nothing (fog), or its true content. A
      fogged square is distinct from a square known to be empty. */
  datatype Seen = Fog | Visible(cell: Cell)

  type View = seq<seq<Seen>>

  datatype Projection = Projected(view: View) | InvalidPerspective

  predicate ValidView(v: View)
  {
    |v| == 8 && forall r :: 0 <= r < 8 ==> |v[r]| == 8
  }

  const FogRow: seq<Seen> := [Fog, Fog, Fog, Fog, Fog, Fog, Fog, Fog]

  const AllFog: View := [FogRow, FogRow, FogRow, FogRow, FogRow, FogRow, FogRow, FogRow]

  /** The piece of side `c` on `o` shows square `s` to its side: `s` is its own
      square or one of its generated destinations. */
  ghost predicate RevealsFrom(b: Board, c: Color, o: Square, s: Square)
    requires ValidBoard(b)
  {
    InBounds(o) && IsOwn(c, At(b, o)) && (s == o || s in Moves(b, o))
  }

  /** Square `s` is shown to side `c` by one of its pieces in the first `rows` rows. */
  ghost predicate Revealed(b: Board, c: Color, rows: int, s: Square)
    requires ValidBoard(b)
  {
    exists o: Square :: o.row < rows && RevealsFrom(b, c, o, s)
  }

  /** `o` comes before square (r, col) in the row-by-row scan. */
  predicate Before(o: Square, r: int, col: int)
  {
    o.row < r || (o.row == r && o.col < col)
  }

  ghost predicate RevealedBefore(b: Board, c: Color, r: int, col: int, s: Square)
    requires ValidBoard(b)
  {
    exists o :: Before(o, r, col) && RevealsFrom(b, c, o, s)
  }

  lemma ScanStep(b: Board, c: Color, r: int, col: int, s: Square)
    requires ValidBoard(b)
    ensures RevealedBefore(b, c, r, col + 1, s) <==>
            RevealedBefore(b, c, r, col, s) || RevealsFrom(b, c, Square(r, col), s)
  {
    if RevealedBefore(b, c, r, col + 1, s) {
      var o :| Before(o, r, col + 1) && RevealsFrom(b, c, o, s);
      if o != Square(r, col) {
        assert Before(o, r, col);
      }
    }
    if RevealsFrom(b, c, Square(r, col), s) {
      assert Before(Square(r, col), r, col + 1);
    }
    if RevealedBefore(b, c, r, col, s) {
      var o :| Before(o, r, col) && RevealsFrom(b, c, o, s);
      assert Before(o, r, col + 1);
    }
  }

  lemma RowStep(b: Board, c: Color, r: int, s: Square)
    requires ValidBoard(b)
    ensures RevealedBefore(b, c, r, 8, s) <==> RevealedBefore(b, c, r + 1, 0, s)
  {
    if RevealedBefore(b, c, r, 8, s) {
      var o :| Before(o, r, 8) && RevealsFrom(b, c, o, s);
      assert Before(o, r + 1, 0);
    }
    if RevealedBefore(b, c, r + 1, 0, s) {
      var o :| Before(o, r + 1, 0) && RevealsFrom(b, c, o, s);
      assert Before(o, r, 8);
    }
  }

  lemma ScanComplete(b: Board, c: Color, rows: int, s: Square)
    requires ValidBoard(b)
    ensures RevealedBefore(b, c, rows, 0, s) <==> Revealed(b, c, rows, s)
  {
    if Revealed(b, c, rows, s) {
      var o: Square :| o.row < rows && RevealsFrom(b, c, o, s);
      assert Before(o, rows, 0);
    }
  }

  /** The view with square `s` showing its true content. */
  function Show(v: View, b: Board, s: Square): (v': View)
    requires ValidView(v) && ValidBoard(b) && InBounds(s)
    ensures ValidView(v')
    ensures v'[s.row][s.col] == Visible(At(b, s))
    ensures forall i, j :: 0 <= i < 8 && 0 <= j < 8 && Square(i, j) != s ==> v'[i][j] == v[i][j]
  {
    v[s.row := v[s.row][s.col := Visible(At(b, s))]]
  }

  /** The view with every square of `ms` showing its true content. */
  method ShowAll(v: View, b: Board, ms: seq<Square>) returns (v': View)
    requires ValidView(v) && ValidBoard(b) && forall p :: p in ms ==> InBounds(p)
    ensures ValidView(v')
    ensures forall i, j :: 0 <= i < 8 && 0 <= j < 8 ==>
      v'[i][j] == if Square(i, j) in ms then Visible(b[i][j]) else v[i][j]
  {
    v' := v;
    var k := 0;
    while k < |ms|
      invariant 0 <= k <= |ms|
      invariant ValidView(v')
      invariant forall i, j :: 0 <= i < 8 && 0 <= j < 8 ==>
        v'[i][j] == if Square(i, j) in ms[..k] then Visible(b[i][j]) else v[i][j]
    {
      v' := Show(v', b, ms[k]);
      assert ms[..k + 1] == ms[..k] + [ms[k]];
      k := k + 1;
    }
    assert ms[..k] == ms;
  }

  /** The fogged view of side `c` built by scanning the first `rows` rows: every
      square starts fogged, and each piece of `c` met in the scan shows its own
      square and each of its generated destinations. */
  method RevealRows(b: Board, c: Color, rows: nat) returns (v: View)
    requires ValidBoard(b) && rows <= 8
    ensures ValidView(v)
    ensures forall i, j :: 0 <= i < 8 && 0 <= j < 8 ==>
      v[i][j] == if Revealed(b, c, rows, Square(i, j)) then Visible(b[i][j]) else Fog
  {
    v := AllFog;
    var r := 0;
    while r < rows
      invariant 0 <= r <= rows
      invariant ValidView(v)
      invariant forall i, j :: 0 <= i < 8 && 0 <= j < 8 ==>
        v[i][j] == if RevealedBefore(b, c, r, 0, Square(i, j)) then Visible(b[i][j]) else Fog
    {
      var col := 0;
      while col < 8
        invariant 0 <= col <= 8
        invariant ValidView(v)
        invariant forall i, j :: 0 <= i < 8 && 0 <= j < 8 ==>
          v[i][j] == if RevealedBefore(b, c, r, col, Square(i, j)) then Visible(b[i][j]) else Fog
      {
        var origin := Square(r, col);
        if IsOwn(c, b[r][col]) {
          v := Show(v, b, origin);
          v := ShowAll(v, b, Moves(b, origin));
        }
        forall s | true
          ensures RevealedBefore(b, c, r, col + 1, s) <==>
                  RevealedBefore(b, c, r, col, s) || RevealsFrom(b, c, origin, s)
        {
          ScanStep(b, c, r, col, s);
        }
        col := col + 1;
      }
      forall s | true
        ensures RevealedBefore(b, c, r, 8, s) <==> RevealedBefore(b, c, r + 1, 0, s)
      {
        RowStep(b, c, r, s);
      }
      r := r + 1;
    }
    forall s | true
      ensures RevealedBefore(b, c, rows, 0, s) <==> Revealed(b, c, rows, s)
    {
      ScanComplete(b, c, rows, s);
    }
  }

  /** With a scan of row 0 alone, a square is shown exactly when a piece of `c` in
      row 0 stands on it or can move to it. */
  lemma FirstRowReveals(b: Board, c: Color, s: Square)
    requires ValidBoard(b)
    ensures Revealed(b, c, 1, s) <==> exists col :: 0 <= col < 8 && RevealsFrom(b, c, Square(0, col), s)
  {
    if Revealed(b, c, 1, s) {
      var o: Square :| o.row < 1 && RevealsFrom(b, c, o, s);
      assert o == Square(0, o.col);
    }
  }

  /** The board as seen from `perspective`: "white" and "black" get their fogged
      view, "audience" the true board, and any other perspective is an error. The
      fogged view scans row 0 only, since the scan returns at the end of its first row. */
  method GetBoard(g: Game, perspective: string) returns (r: Projection)
    requires ValidBoard(g.board)
    ensures r.Projected? <==> perspective in {"white", "black", "audience"}
    ensures r.Projected? ==> ValidView(r.view)
    ensures perspective == "audience" ==>
      forall i, j :: 0 <= i < 8 && 0 <= j < 8 ==> r.view[i][j] == Visible(g.board[i][j])
    ensures perspective in {"white", "black"} ==>
      var c := if perspective == "white" then White else Black;
      forall i, j :: 0 <= i < 8 && 0 <= j < 8 ==>
        && (r.view[i][j] == Fog || r.view[i][j] == Visible(g.board[i][j]))
        && (r.view[i][j] != Fog <==>
              exists col :: 0 <= col < 8 && RevealsFrom(g.board, c, Square(0, col), Square(i, j)))
  {
    if perspective == "white" || perspective == "black" {
      var c := if perspective == "white" then White else Black;
      var v := RevealRows(g.board, c, 1);
      forall s | true
        ensures Revealed(g.board, c, 1, s) <==>
                exists col :: 0 <= col < 8 && RevealsFrom(g.board, c, Square(0, col), s)
      {
        FirstRowReveals(g.board, c, s);
      }
      r := Projected(v);
    } else if perspective == "audience" {
      var b := g.board;
      r := Projected(seq(8, i requires 0 <= i < 8 => seq(8, j requires 0 <= j < 8 => Visible(b[i][j]))));
    } else {
      r := InvalidPerspective;
    }
  }

  /** White's view of a fresh game as the engine builds it: every square is
      fogged, White's own pieces included, since row 0 holds only Black pieces. */
  method InitialWhiteView() returns (v: View)
    ensures ValidView(v)
    ensures forall i, j :: 0 <= i < 8 && 0 <= j < 8 ==> v[i][j] == Fog
  {
    var r := GetBoard(NewGame(), "white");
    v := r.view;
    var b := NewGame().board;
    forall i, j, col | 0 <= i < 8 && 0 <= j < 8 && 0 <= col < 8
      ensures !RevealsFrom(b, White, Square(0, col), Square(i, j))
    {
      assert IsOwn(Black, b[0][col]);
    }
  }

  /** The view of side `c` with all eight rows scanned: a square is shown exactly
      when some piece of `c` stands on it or can move to it, so every piece of
      `c` is shown. */
  method RevealAllRows(b: Board, c: Color) returns (v: View)
    requires ValidBoard(b)
    ensures ValidView(v)
    ensures forall i, j :: 0 <= i < 8 && 0 <= j < 8 ==>
      && (v[i][j] == Fog || v[i][j] == Visible(b[i][j]))
      && (v[i][j] != Fog <==> exists o :: RevealsFrom(b, c, o, Square(i, j)))
      && (IsOwn(c, b[i][j]) ==> v[i][j] == Visible(b[i][j]))
  {
    v := RevealRows(b, c, 8);
    forall i, j | 0 <= i < 8 && 0 <= j < 8 && IsOwn(c, b[i][j])
      ensures Revealed(b, c, 8, Square(i, j))
    {
      assert RevealsFrom(b, c, Square(i, j), Square(i, j));
    }
    forall s | true
      ensures Revealed(b, c, 8, s) <==> exists o :: RevealsFrom(b, c, o, s)
    {
      if exists o :: RevealsFrom(b, c, o, s) {
        var o :| RevealsFrom(b, c, o, s);
        assert o.row < 8;
      }
    }
  }

  /** The corrected fogged view: every row is scanned, so a square is shown
      exactly when some piece of `c` anywhere on the board stands on it or can
      move to it, and each side sees all of its own pieces. */
  method GetBoardIntended(g: Game, perspective: string) returns (r: Projection)
    requires ValidBoard(g.board)
    ensures r.Projected? <==> perspective in {"white", "black", "audience"}
    ensures r.Projected? ==> ValidView(r.view)
    ensures perspective == "audience" ==>
      forall i, j :: 0 <= i < 8 && 0 <= j < 8 ==> r.view[i][j] == Visible(g.board[i][j])
    ensures perspective in {"white", "black"} ==>
      var c := if perspective == "white" then White else Black;
      forall i, j :: 0 <= i < 8 && 0 <= j < 8 ==>
        && (r.view[i][j] == Fog || r.view[i][j] == Visible(g.board[i][j]))
        && (r.view[i][j] != Fog <==> exists o :: RevealsFrom(g.board, c, o, Square(i, j)))
        && (IsOwn(c, g.board[i][j]) ==> r.view[i][j] == Visible(g.board[i][j]))
  {
    if perspective == "white" || perspective == "black" {
      var c := if perspective == "white" then White else Black;
      var v := RevealAllRows(g.board, c);
      r := Projected(v);
    } else if perspective == "audience" {
      var b := g.board;
      r := Projected(seq(8, i requires 0 <= i < 8 => seq(8, j requires 0 <= j < 8 => Visible(b[i][j]))));
    } else {
      r := InvalidPerspective;
    }
  }
}
