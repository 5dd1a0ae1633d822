/** The move executor: a game is a board, the side to move and the game state;
    a move is validated by a chain of checks made before any change, then the
    piece is relocated, the state may be re-evaluated and the turn passes. */
module Executor {
  import opened ChessBoard
  import opened Coordinates
  import opened MoveGen
  import MoveRules

  datatype GameState = Unfinished | WhiteWon | BlackWon

  datatype Game = Game(board: Board, turn: Color, state: GameState)

  function WonBy(c: Color): GameState
  {
    if c == White then WhiteWon else BlackWon
  }

  /** Some cell of the board holds the king of side `c`. */
  predicate HasKing(b: Board, c: Color)
  {
    exists r, col :: 0 <= r < |b| && 0 <= col < |b[r]| && b[r][col] == Piece(King, c)
  }

  /** A fresh game: the standard layout, White to move, nobody has won. */
  function NewGame(): (g: Game)
    ensures g.board == InitialBoard()
    ensures ValidBoard(g.board) && g.turn == White && g.state == Unfinished
    ensures HasKing(g.board, White) && HasKing(g.board, Black)
  {
    var b := InitialBoard();
    assert b[7][4] == Piece(King, White) && b[0][4] == Piece(King, Black);
    Game(b, White, Unfinished)
  }

  /** The checks a move must pass once the game is unfinished: both squares on the
      board, a piece of the side to move on the origin (not a blank, not an
      opposing piece), and the destination among that piece's generated moves. */
  predicate Legal(g: Game, from: Square, to: Square)
    requires ValidBoard(g.board)
  {
    && InBounds(from) && InBounds(to)
    && IsOwn(g.turn, At(g.board, from))
    && to in Moves(g.board, from)
  }

  /** The piece on `from` moved onto `to`; whatever stood on `to` is discarded. */
  function Relocate(b: Board, from: Square, to: Square): (b': Board)
    requires ValidBoard(b) && InBounds(from) && InBounds(to) && from != to
    ensures ValidBoard(b')
    ensures At(b', to) == At(b, from) && At(b', from) == Empty
    ensures forall t :: InBounds(t) && t != from && t != to ==> At(b', t) == At(b, t)
    ensures PieceCount(b') == PieceCount(b) - Occupancy(At(b, to))
  {
    var b1 := Put(b, to, At(b, from));
    PutCount(b, to, At(b, from));
    PutCount(b1, from, Empty);
    Put(b1, from, Empty)
  }

  /** `b'` is `b` with the piece on `from` moved onto `to`: the destination holds
      the moved piece, the origin is empty, every other square is unchanged, and
      the piece count drops by one for a capture and stays the same otherwise. */
  ghost predicate MoveApplied(b: Board, from: Square, to: Square, b': Board)
    requires ValidBoard(b) && ValidBoard(b') && InBounds(from) && InBounds(to)
  {
    && At(b', to) == At(b, from)
    && At(b', from) == Empty
    && (forall t :: InBounds(t) && t != from && t != to ==> At(b', t) == At(b, t))
    && PieceCount(b') == PieceCount(b) - Occupancy(At(b, to))
  }

  /** The state after `piece` of side `mover` has moved, as the engine evaluates
      it: only a king move re-examines the state, and it declares the mover the
      winner only when no opposing king is left anywhere on the board. */
  function StateAfterMove(state: GameState, mover: Color, piece: Cell, b': Board): GameState
  {
    if piece.Piece? && piece.kind == King && !HasKing(b', Opponent(mover)) then WonBy(mover) else state
  }

  /** Attempts the move from square `start` to square `end`, both given by name.
      The result is whether the move was made, and the game after it. */
  function MakeMove(g: Game, start: string, end: string): (r: (bool, Game))
    requires ValidBoard(g.board)
    requires g.state == Unfinished ==> Parsable(start) && Parsable(end)
    ensures ValidBoard(r.1.board)
    ensures r.0 <==> g.state == Unfinished && Legal(g, ConvertPosition(start), ConvertPosition(end))
    ensures !r.0 ==> r.1 == g
    ensures r.0 ==>
      && MoveApplied(g.board, ConvertPosition(start), ConvertPosition(end), r.1.board)
      && r.1.turn == Opponent(g.turn)
    ensures r.0 ==>
      var moved, b' := At(g.board, ConvertPosition(start)), r.1.board;
      && (r.1.state != Unfinished <==> moved.kind == King && !HasKing(b', Opponent(g.turn)))
      && (r.1.state != Unfinished ==> r.1.state == WonBy(g.turn))
  {
    if g.state != Unfinished then (false, g)
    else
      var from := ConvertPosition(start);
      var to := ConvertPosition(end);
      if !Legal(g, from, to) then (false, g)
      else
        var piece := At(g.board, from);
        var b' := Relocate(g.board, from, to);
        (true, Game(b', Opponent(g.turn), StateAfterMove(g.state, g.turn, piece, b')))
  }

  /** Once the game is over every move is refused and nothing changes, whatever
      the coordinate strings are. */
  lemma FinishedGameIsFrozen(g: Game, start: string, end: string)
    requires ValidBoard(g.board) && g.state != Unfinished
    ensures MakeMove(g, start, end) == (false, g)
  {
  }

  /** Repeating a refused move is refused again and still changes nothing. */
  lemma RejectionIsIdempotent(g: Game, start: string, end: string)
    requires ValidBoard(g.board)
    requires g.state == Unfinished ==> Parsable(start) && Parsable(end)
    requires !MakeMove(g, start, end).0
    ensures MakeMove(MakeMove(g, start, end).1, start, end) == (false, g)
  {
  }

  /** A move by the side not on turn is refused. */
  lemma WrongSideIsRefused(g: Game, start: string, end: string)
    requires ValidBoard(g.board) && Parsable(start) && Parsable(end)
    requires InBounds(ConvertPosition(start)) && !IsOwn(g.turn, At(g.board, ConvertPosition(start)))
    ensures MakeMove(g, start, end) == (false, g)
  {
  }

  /** A move by any piece other than a king never ends the game. */
  lemma OnlyKingMovesWin(g: Game, start: string, end: string)
    requires ValidBoard(g.board) && g.state == Unfinished && Parsable(start) && Parsable(end)
    requires InBounds(ConvertPosition(start)) && At(g.board, ConvertPosition(start)).Piece?
    requires At(g.board, ConvertPosition(start)).kind != King
    ensures MakeMove(g, start, end).1.state == Unfinished
  {
  }

  /** The opening double step of White's e-pawn is made: the pawn stands on e4,
      e2 is empty and Black is to move. */
  lemma OpeningDoubleStep()
    ensures var r := MakeMove(NewGame(), "e2", "e4");
      && r.0
      && At(r.1.board, Square(4, 4)) == Piece(Pawn, White)
      && At(r.1.board, Square(6, 4)) == Empty
      && r.1.turn == Black && r.1.state == Unfinished
  {
    var g := NewGame();
    assert ConvertPosition("e2") == Square(6, 4) && ConvertPosition("e4") == Square(4, 4);
    MoveRules.MovesFollowRules(g.board, Square(6, 4), Square(4, 4));
  }

  /** A pawn cannot advance three squares: e2-e5 is refused and nothing changes. */
  lemma OpeningTripleStepRefused()
    ensures MakeMove(NewGame(), "e2", "e5") == (false, NewGame())
  {
    var g := NewGame();
    var from, to := Square(6, 4), Square(3, 4);
    assert ConvertPosition("e2") == from && ConvertPosition("e5") == to;
    assert At(g.board, from) == Piece(Pawn, White);
    MoveRules.MovesFollowRules(g.board, from, to);
    assert !PawnReaches(g.board, from, White, to);
    assert !Legal(g, from, to);
  }

  /** A position with White's queen on e7 next to Black's king on e8, and White's
      king on e1. */
  function QueenTakesKingBoard(): (b: Board)
    ensures ValidBoard(b)
  {
    [[Empty, Empty, Empty, Empty, Piece(King, Black), Empty, Empty, Empty],
     [Empty, Empty, Empty, Empty, Piece(Queen, White), Empty, Empty, Empty],
     EmptyRow, EmptyRow, EmptyRow, EmptyRow, EmptyRow,
     [Empty, Empty, Empty, Empty, Piece(King, White), Empty, Empty, Empty]]
  }

  lemma QueenTakesKingBoardKings(i: int, j: int)
    requires 0 <= i < 8 && 0 <= j < 8
    ensures QueenTakesKingBoard()[i][j] == Piece(King, Black) <==> i == 0 && j == 4
  {
    var b := QueenTakesKingBoard();
    if 2 <= i < 7 {
      assert b[i] == EmptyRow;
    }
  }

  /** When a piece other than a king captures the opposing side's only king, the
      move leaves that side without a king, yet the game stays unfinished, because
      only a king move re-evaluates the state. */
  lemma KingCapturedByOtherPieceLeavesUnfinished(g: Game, start: string, end: string)
    requires ValidBoard(g.board) && g.state == Unfinished && Parsable(start) && Parsable(end)
    requires InBounds(ConvertPosition(start)) && InBounds(ConvertPosition(end))
    requires At(g.board, ConvertPosition(start)) != Piece(King, g.turn)
    requires At(g.board, ConvertPosition(end)) == Piece(King, Opponent(g.turn))
    requires forall t :: InBounds(t) && t != ConvertPosition(end) ==> At(g.board, t) != Piece(King, Opponent(g.turn))
    ensures var r := MakeMove(g, start, end);
      r.0 ==> !HasKing(r.1.board, Opponent(g.turn)) && r.1.state == Unfinished
  {
    var from, to := ConvertPosition(start), ConvertPosition(end);
    var r := MakeMove(g, start, end);
    if r.0 {
      assert MoveApplied(g.board, from, to, r.1.board);
      KingGone(g.board, from, to, r.1.board, Opponent(g.turn));
    }
  }

  /** After a move that lands on the only king of side `c` with a piece that is not
      that king, side `c` has no king on the board. */
  lemma KingGone(b: Board, from: Square, to: Square, b': Board, c: Color)
    requires ValidBoard(b) && ValidBoard(b') && InBounds(from) && InBounds(to)
    requires MoveApplied(b, from, to, b')
    requires At(b, from) != Piece(King, c)
    requires forall t :: InBounds(t) && t != to ==> At(b, t) != Piece(King, c)
    ensures !HasKing(b', c)
  {
    forall i, j | 0 <= i < 8 && 0 <= j < 8
      ensures b'[i][j] != Piece(King, c)
    {
      var t := Square(i, j);
      assert At(b', t) == b'[i][j];
    }
  }

  /** White's queen on e7 takes Black's only king on e8: the move is made, Black
      has no king left, and the game is still unfinished. */
  lemma QueenCaptureLeavesUnfinished(g: Game)
    requires g == Game(QueenTakesKingBoard(), White, Unfinished)
    ensures var r := MakeMove(g, "e7", "e8");
      r.0 && !HasKing(r.1.board, Black) && r.1.state == Unfinished
  {
    var b := g.board;
    var from, to := Square(1, 4), Square(0, 4);
    assert ConvertPosition("e7") == from && ConvertPosition("e8") == to;
    assert At(b, from) == Piece(Queen, White);
    assert At(b, to) == Piece(King, Black);
    assert Geometry.Distance(from, to) == 1;
    MoveRules.MovesFollowRules(b, from, to);
    assert Legal(g, from, to);
    forall t | InBounds(t) && t != to
      ensures At(b, t) != Piece(King, Black)
    {
      QueenTakesKingBoardKings(t.row, t.col);
    }
    KingCapturedByOtherPieceLeavesUnfinished(g, "e7", "e8");
  }

  /** The state after a move that captured `captured`, under the corrected win
      rule: the mover wins exactly when it captured the opposing king. */
  function StateAfterCapture(state: GameState, mover: Color, captured: Cell): GameState
  {
    if captured == Piece(King, Opponent(mover)) then WonBy(mover) else state
  }

  /** The move executor with the win decided by what was captured rather than by
      what moved: the same checks and the same relocation as `MakeMove`. */
  function MakeMoveIntended(g: Game, start: string, end: string): (r: (bool, Game))
    requires ValidBoard(g.board)
    requires g.state == Unfinished ==> Parsable(start) && Parsable(end)
    ensures ValidBoard(r.1.board)
    ensures r.0 <==> MakeMove(g, start, end).0
    ensures !r.0 ==> r.1 == g
    ensures r.0 ==>
      && r.1.board == MakeMove(g, start, end).1.board
      && r.1.turn == Opponent(g.turn)
    ensures r.0 ==>
      && (r.1.state != Unfinished <==> At(g.board, ConvertPosition(end)) == Piece(King, Opponent(g.turn)))
      && (r.1.state != Unfinished ==> r.1.state == WonBy(g.turn))
  {
    if g.state != Unfinished then (false, g)
    else
      var from := ConvertPosition(start);
      var to := ConvertPosition(end);
      if !Legal(g, from, to) then (false, g)
      else
        var b' := Relocate(g.board, from, to);
        (true, Game(b', Opponent(g.turn), StateAfterCapture(g.state, g.turn, At(g.board, to))))
  }

  /** Under the intended rule the queen's capture of the king wins the game for
      White, and every later move is refused. */
  lemma QueenCaptureWinsIntended(g: Game, start: string, end: string)
    requires g == Game(QueenTakesKingBoard(), White, Unfinished)
    ensures var r := MakeMoveIntended(g, "e7", "e8");
      r.0 && r.1.state == WhiteWon && MakeMoveIntended(r.1, start, end) == (false, r.1)
  {
    QueenCaptureLeavesUnfinished(g);
  }
}
