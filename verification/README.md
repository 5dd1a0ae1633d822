# Fog of War chess rules engine, modelled in Dafny

This project models the rules engine of a Fog of War chess variant, the
`ChessVar` class. A game is an 8x8 board, the side to move and a game state
(`UNFINISHED`, `WHITE_WON` or `BLACK_WON`). The model covers four parts:

- **Coordinate conversion** (`Coordinates`). Algebraic names such as `e2` map
  to (row, column) pairs, with row 0 at the top: `a1` is (7, 0) and `h8` is
  (0, 7).
- **Move generator** (`Geometry`, `MoveGen`, `MoveRules`). It yields the
  destinations of the piece on a square. Pawns push one square, push two from
  the start row, and capture diagonally. Knights and kings use fixed offsets.
  Rooks, bishops and queens slide along rays.
- **Move executor** (`Executor`). It makes the checks of a move in order, then
  moves the piece, may end the game, and passes the turn.
- **Visibility projector** (`Projector`). It builds the fogged view of one
  side, or returns the true board for the audience.

A square is `Empty` or holds one `Piece(kind, color)`. An empty square
belongs to neither side. The board is an immutable `seq<seq<Cell>>`. `make_move` is a pure
function returning `(accepted, game after)`. `get_board` is a method that
returns a `Projection`: a view of `Fog | Visible(cell)` squares, or
`InvalidPerspective`.

Each generator function is paired with an independent reference. `Reaches`
states the movement rules geometrically: L-shaped jumps, adjacent squares,
ranks, files and diagonals with an empty path between. `MovesFollowRules`
proves that the generator produces exactly the squares `Reaches` allows. The
fogged view is paired with `Revealed`, which says which pieces show which
squares. `RevealRows` proves its loop builds exactly that view.

The code is modelled as written, including two behaviours that look
unintended (see "## Findings"):

- The game state is re-evaluated only when the moving piece is a king.
- The fogged view scans row 0 only, because `return visible_board` sits inside
  the row loop.

## Model

| member | source | states |
|---|---|---|
| `ChessBoard.InitialBoard` | ChessVar.py:9-16 | The starting layout: Black's home rank on row 0 and pawns on row 1, empty rows 2-5, White's pawns on row 6 and home rank on row 7, kings on the e-file |
| `ChessBoard.PutCount` | ChessVar.py:149-150 | Writing one square changes the piece count by the new occupancy minus the old one |
| `Coordinates.ConvertPosition` | ChessVar.py:24-32 | A converted square is on the board exactly when the file is a-h and the rank is 1-8; any other file or rank gives an off-board pair |
| `Coordinates.SquareName` | ChessVar.py:24-28 | Every on-board square has a two-character name that converts back to it |
| `Coordinates.NameOfConvertedSquare` | ChessVar.py:24-28 | Naming undoes conversion on the 64 names, so conversion is a bijection between names and on-board squares |
| `Coordinates.ConvertInjective` | ChessVar.py:24-28 | Two square names that convert to the same square are equal |
| `Coordinates.CornerSquares` | ChessVar.py:24-28 | `a1` converts to (7, 0), `h8` to (0, 7) and `e2` to (6, 4) |
| `Coordinates.TrailingCharactersIgnored` | ChessVar.py:26-27 | Only the first two characters of a coordinate string matter |
| `Geometry.Ray` | ChessVar.py:114-126 | A ray is the consecutive squares along its direction, all on the board. Every square but the last is empty, and the last is empty or holds an opposing piece |
| `Geometry.RayContains` | ChessVar.py:116-126 | A square reached over empty squares is on the ray if it is empty or holds an opposing piece |
| `Geometry.RayReaches` | ChessVar.py:109-128 | A square is on a ray exactly when some number of steps reaches it, every square before it is empty, and it is empty or capturable |
| `Geometry.RayStopsAtFirstPiece` | ChessVar.py:116-124 | With the first occupied square at step k, the ray has k+1 squares if that square holds an opposing piece and k otherwise. It never goes past that square |
| `MoveGen.Steps` | ChessVar.py:85-90 | A square is a step destination exactly when one of the offsets leads to it, it is on the board and it holds no own piece |
| `MoveGen.Slides` | ChessVar.py:114-127 | A square is a slide destination exactly when it is on the ray of one of the directions |
| `MoveGen.PawnMoves` | ChessVar.py:63-77 | Pawn destinations are exactly: the empty square ahead; two ahead from the start row when both are empty; a diagonal square ahead holding an opposing piece |
| `MoveGen.SlidesLand` | ChessVar.py:114-126 | Every square a slider generates is on the board and is empty or holds an opposing piece |
| `MoveGen.Moves` | ChessVar.py:58-107 | Every destination is on the board and holds no piece of the mover's colour, and the origin is never a destination. An empty square has no moves |
| `MoveRules.KnightDestinations` | ChessVar.py:82-90 | A knight reaches exactly the on-board L-shaped jumps that hold no own piece |
| `MoveRules.KingDestinations` | ChessVar.py:99-105 | A king reaches exactly the on-board neighbouring squares that hold no own piece |
| `MoveRules.SlideDestinations` | ChessVar.py:109-128 | A slider reaches a square exactly when it lies along one of the slider's directions, the squares between are empty, and it holds no own piece |
| `MoveRules.RookDestinations` | ChessVar.py:79-80 | A rook reaches exactly the squares on its rank or file with an empty path between that hold no own piece |
| `MoveRules.BishopDestinations` | ChessVar.py:92-93 | A bishop reaches exactly the squares on its diagonals with an empty path between that hold no own piece |
| `MoveRules.QueenDestinations` | ChessVar.py:95-97 | A queen reaches exactly the squares a rook or a bishop on its square would reach |
| `MoveRules.MovesFollowRules` | ChessVar.py:58-128 | A square is generated for the piece on `from` exactly when that piece's movement rule allows the move |
| `MoveRules.PawnRules` | ChessVar.py:63-77 | Pawn destinations straight ahead are empty. The two-step move comes only from the start row over an empty square. Diagonal destinations hold opposing pieces |
| `MoveRules.PawnPushCount` | ChessVar.py:67-71 | On its start row with both squares ahead empty, a pawn has exactly two non-capturing destinations. Elsewhere it has at most one |
| `Executor.NewGame` | ChessVar.py:7-18 | A new game has the starting layout (so the guarantees of `InitialBoard` apply to its board), White to move and state unfinished, and each colour has a king on the board |
| `Executor.Relocate` | ChessVar.py:149-150 | The destination gets the moved piece and the origin becomes empty. Every other square is unchanged, and the piece count drops by one exactly for a capture |
| `Executor.MakeMove` | ChessVar.py:130-162 | A move is made exactly when the game is unfinished, both squares are on the board, the origin holds a piece of the side to move, and the destination is generated for it. Otherwise nothing changes. A made move relocates the piece and passes the turn. The state changes exactly when a king moved and no opposing king is left, and then it names the mover as winner |
| `Executor.FinishedGameIsFrozen` | ChessVar.py:132-133 | Once the game is over, every move is refused with nothing changed, whatever the coordinate strings are |
| `Executor.RejectionIsIdempotent` | ChessVar.py:130-147 | Repeating a refused move is refused again and changes nothing |
| `Executor.WrongSideIsRefused` | ChessVar.py:141-143 | A move whose origin holds no piece of the side to move (a blank or an opposing piece) is refused |
| `Executor.OnlyKingMovesWin` | ChessVar.py:152-158 | A move by any piece other than a king leaves the game unfinished |
| `Executor.KingCapturedByOtherPieceLeavesUnfinished` | ChessVar.py:152-158 | When a piece other than the mover's king captures the opponent's only king and the move is accepted, the opponent has no king left, yet the game stays unfinished |
| `Executor.KingGone` | ChessVar.py:154-157 | After a move onto the only king of a side by another piece, that side has no king anywhere on the board |
| `Executor.QueenCaptureLeavesUnfinished` | ChessVar.py:152-158 | White's queen on e7 taking Black's only king on e8 is accepted, and the state stays unfinished |
| `Executor.OpeningDoubleStep` | ChessVar.py:130-162 | In a fresh game, e2-e4 is made: the pawn stands on e4, e2 is empty, Black is to move and the game is unfinished |
| `Executor.OpeningTripleStepRefused` | ChessVar.py:145-147 | In a fresh game, e2-e5 is refused and nothing changes |
| `Executor.MakeMoveIntended` | ChessVar.py:152-158 | Corrected win rule. The same checks, relocation and turn change as `MakeMove`, but the mover wins exactly when the captured piece was the opposing king |
| `Executor.QueenCaptureWinsIntended` | ChessVar.py:152-158 | Under the corrected rule, the queen's capture of the king on e8 wins the game for White, and every later move is refused |
| `Projector.ShowAll` | ChessVar.py:44-46 | Each generated destination shows its true content, and every other square of the view is unchanged |
| `Projector.RevealRows` | ChessVar.py:38-47 | After scanning the first `rows` rows, a square shows its true content exactly when a piece of the viewer in those rows stands on it or can move to it. Otherwise it is fogged |
| `Projector.FirstRowReveals` | ChessVar.py:39-47 | With row 0 scanned, a square is shown exactly when a piece of the viewer in row 0 stands on it or can move to it |
| `Projector.GetBoard` | ChessVar.py:34-56 | "audience" gets the true board, and any perspective other than "white", "black" or "audience" is an error. For "white" and "black", every square is fogged or shows its true content. It is shown exactly when it holds a row-0 piece of that colour or is a destination of one |
| `Projector.InitialWhiteView` | ChessVar.py:37-50 | White's view of a fresh game is entirely fogged, White's own pieces included |
| `Projector.RevealAllRows` | ChessVar.py:38-46 | Corrected scan of all eight rows: a square is shown exactly when some piece of the viewer stands on it or can move to it, and every own piece is shown |
| `Projector.GetBoardIntended` | ChessVar.py:37-56 | Corrected projector. Every row is scanned, so a square is shown exactly when some piece of the viewer stands on it or can move to it, and every own piece is shown |

## Left out

- Malformed coordinate strings: strings shorter than two characters, or with
  a non-digit second character, raise an exception in the source.
  `MakeMove` requires parsable strings while the game is unfinished. It does
  not model the exception.
- Coordinates.ConvertPosition: takes only ASCII digits '0'-'9' as the rank.
  Other Unicode decimal digits that Python's `int()` also accepts are not
  modelled.
- The `ValueError` for an unknown perspective is the `InvalidPerspective`
  result, not an exception.
- Projector.GetBoard: for "audience" it returns a copy of the board as
  `Visible` squares. The source returns the live board list, and aliasing is
  not modelled.
- `get_game_state` is the `state` field of `Game`. It needs no operation of
  its own.
- `_is_within_bounds` is the `InBounds` predicate and has no contract of its
  own. Its use is covered by `ConvertPosition`, `Moves` and `MakeMove`.
- Check, checkmate, castling, en passant, promotion and draws are absent from
  the engine, so the model has none of them either.
- There is no I/O, concurrency or floating point to leave out.

## Findings

| source | as written | input that shows it | evidently intended | confidence | as-written member | corrected member |
|---|---|---|---|---|---|---|
| ChessVar.py:152-158 | The game state is re-evaluated only when the moving piece is a king | White queen on e7, Black king on e8 (Black's only king), White king on e1, White to move; `make_move('e7', 'e8')` is accepted, Black has no king, the state stays UNFINISHED | Capturing the opposing king ends the game with the mover's win | high; not executed | `Executor.QueenCaptureLeavesUnfinished` | `Executor.MakeMoveIntended` |
| ChessVar.py:39-47 | `return visible_board` is inside the `for r` loop, so only row 0 is scanned | A fresh game, `get_board('white')`: every square is fogged, White's own pieces included | All eight rows are scanned, so each side always sees its own pieces | high; not executed | `Projector.InitialWhiteView` | `Projector.GetBoardIntended` |

The executor and the projector are modelled as written (`MakeMove`,
`GetBoard`). Every property lemma about the engine is stated about them. The
corrected definitions sit beside them, and the intended property is proved
for each: `MakeMoveIntended` with `QueenCaptureWinsIntended`, and
`GetBoardIntended` through `RevealAllRows`.
