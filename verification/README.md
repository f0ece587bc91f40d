# Chess front-end: input-to-move interaction, in Dafny

This project models the input handling of a small chess front-end written in
Rust on top of the `iced` GUI toolkit and the `cozy_chess` rules engine. It
covers two parts:

- **Coordinate mapping** (module `Coords`). Grid cells (file, row) have row 0
  at the top of the screen. Squares are numbered as the engine numbers them,
  with a1 = 0 and a8 = 56. Canvas points are in pixels, and a tile is 64
  pixels wide. `coord_to_square` and `index_to_coord` work on `usize`, so
  they include the subtraction `7 - x` and the subtraction `63 - (...)`. A
  subtraction that would go negative panics in a debug build, and the model
  represents that outcome as `None`.
- **The `VisualBoard::update` state machine** (module `VisualBoard`). `Click`
  handles a click once its point has been mapped to a square, and `Update`
  handles both kinds of message. It has
  the states `Playing`, `Waiting` and `Promoting` and the fields `selected`,
  `promotion_square` and `hovered_tile`. `Update` returns `Panicked(...)`
  where the Rust code would panic: an `unwrap()` of `None`, or the `panic!`
  arm of the picker's piece match. The invariant `Valid` shows that this
  result is unreachable from the starting state.

The chess engine is not modelled. It appears as an `Engine<B>` record of
three function values over an opaque position type `B`:

- `pieceOn` stands for `Board::piece_on`.
- `legalMoves` lists the moves that `Board::generate_moves_for` produces for
  one square, flattened into a sequence in generation order.
- `tryPlay` stands for `Board::try_play`. It returns `None` for a rejected
  move, so a rejected move leaves the position unchanged by construction.

The renderer's two decisions, the tile colour and the picker highlight, are
in module `Draw`. Module `Engine` also models the scan that detects a
promotion move, both as the early-exit loop (`ScanForPromotion`) and as its
specification (`HasPromotionTo`).

Clicks never change `hovered_tile`. Nothing clears it when a promotion ends,
so the next promotion starts with the cell recorded during the previous one
(`ClicksKeepHover`). Cursor movements reach `update` only while promoting. So
if the first click of a new promotion comes before any cursor movement, the
cell left over from the earlier promotion decides the piece.

## Model

| member | source | states |
|---|---|---|
| Coords.CoordToSquare | src/main.rs:17-19 | defined exactly on cells with file and row below 8; the square's file is the column and its rank is 7 minus the row |
| Coords.IndexToCoord | src/main.rs:21-25 | defined exactly on indices below 64; yields an on-board cell that maps back to the same index |
| Coords.CoordRoundTrip | src/main.rs:17-25 | for every cell of the 8x8 grid, cell to square to cell is the identity |
| Coords.IndexRoundTrip | src/main.rs:17-25 | for every index 0..63, index to cell to index is the identity |
| Coords.TopRowIsEighthRank | src/main.rs:17-19 | row 0, the top of the screen, holds squares 56..63, the eighth rank from a8 to h8 |
| Coords.CoordToSquareInjective | src/main.rs:17-19 | two different cells never name the same square |
| Coords.CellAt | src/main.rs:158-172 | no cell when the point lies outside the 8x8 tile area on either axis; otherwise an on-board cell whose pixel area contains the point |
| Coords.CellAtIsTheContainingCell | src/main.rs:123-130 | the hovered cell is the one cell whose pixel area contains the point, and no other cell |
| Coords.SquareFromPoint | src/main.rs:165-172 | no square exactly when the point is off the board; otherwise the square whose cell is the cell under the point |
| Coords.CentreOfSquareMapsBack | src/main.rs:165-172 | a click on the centre of the tile drawn for any square selects that square |
| Engine.HasPromotionTo | src/main.rs:66-75 | true exactly when some generated move lands on the target with a promotion piece |
| Engine.ScanForPromotion | src/main.rs:65-75 | the early-exit loop over the generated moves finds a promotion move exactly when one exists |
| VisualBoard.Initial | src/main.rs:175-188 | the starting state satisfies the invariant, holds the starting position, and has no selection or hovered cell |
| VisualBoard.PromotionPiece | src/main.rs:101-107 | gives a piece exactly for files 2..5, never a pawn or king, so the catch-all arm cannot be reached from a picker cell |
| VisualBoard.PickerOffersEachPieceOnce | src/main.rs:101-107 | the four picker files 2, 3, 4 and 5 offer rook, knight, bishop and queen in ascending file order, each on one cell |
| VisualBoard.Click | src/main.rs:57-121 | a click on a given square, or off the board, from a state satisfying the invariant does not panic and the invariant holds again |
| VisualBoard.Update | src/main.rs:53-132 | from a state satisfying the invariant, handling any message does not panic and the invariant holds again |
| VisualBoard.RunKeepsValid | src/main.rs:53-132 | from a state satisfying the invariant, any sequence of messages runs without a panic and ends with the invariant holding |
| VisualBoard.NeverPanicsFromStart | src/main.rs:109-113 | from the starting state no input makes the two unwraps panic, and `Waiting` is never entered |
| VisualBoard.PromotingWithoutSelectionPanics | src/main.rs:109-113 | a picker click in a promoting state that has no selection would panic, and such a state breaks the invariant |
| VisualBoard.ClickDetectsPromotion | src/main.rs:60-81 | a selected pawn with a generated promotion move to the clicked square enters Promoting with that promotion square; selection, position and hover are kept |
| VisualBoard.OrdinaryClick | src/main.rs:59-93 | any other click while playing stays in Playing and keeps the promotion square; the selection becomes the clicked square or none; the position changes only via one try_play(s, t, None), made only when both squares exist |
| VisualBoard.RejectedMoveOnlyReselects | src/main.rs:87-93 | when the engine rejects the move, the click only replaces the selection with the clicked square |
| VisualBoard.PromotingClick | src/main.rs:96-119 | a promoting click is accepted exactly on a hovered picker cell; it then plays the pending move with that cell's piece, resumes Playing, clears the promotion square and selects the clicked square; otherwise nothing changes |
| VisualBoard.ClicksKeepHover | src/main.rs:57-121 | clicks never change the hovered cell |
| VisualBoard.WaitingClickIsNoOp | src/main.rs:95 | a click while waiting changes nothing |
| VisualBoard.CursorMoveOnlyHovers | src/main.rs:123-130 | a cursor movement only records the hovered cell, and repeating it to the same point changes nothing further |
| VisualBoard.HoverThenClickPromotesToBishop | src/main.rs:96-119 | hovering the centre of picker cell (4, 4) and then clicking promotes to a bishop and resumes play |
| VisualBoard.OpeningPawnPush | src/main.rs:57-93 | from the start, a click in e2 and then a click in e4 try e2-e4 without promotion and leave e4 selected |
| Draw.TileColourFollowsChessConvention | src/main.rs:238-242 | a tile is light exactly when file plus rank of its square is odd, so a1 is dark and h1 is light |
| Draw.NeighbouringTilesDiffer | src/main.rs:238-242 | tiles sharing an edge have different colours |
| Draw.HighlightMatchesAcceptedClick | src/main.rs:320-330 | while promoting, a click is accepted exactly when a picker cell is highlighted |

## Left out

- Application start-up (`main`, window size) and the text panel (`view`) are left out. They make no decisions.
- The canvas event filter (`canvas::Program::update`) is left out. It turns a left-button press into `Clicked` and forwards `CursorMoved` only while promoting. It also drops every event, click or cursor movement, while the cursor is outside the canvas, so an off-board `Clicked` never reaches `update` and leaving the canvas never resets the hovered cell; `Update` accepts these inputs as well, so the proved properties cover a superset of what the program delivers. `Update` handles `CursorMoved` in every state, as the Rust `update` does. `CursorMoved` carries the window position while `Clicked` carries the position within the canvas bounds; the model treats both as canvas points, which agrees because the canvas is the first element of the window's row and so sits at the window origin.
- Clearing the frame cache on every message is left out. It only affects when the frame is repainted.
- Drawing calls, sprite paths, the dimming overlay and piece sprites (`color_on`) are left out. Only the tile-colour and picker-highlight predicates carry a decision.
- The legal-destination highlight is left out. Its listener overwrites the stored move group on every call and returns `false`, so generation goes on and the last group reported for the selected square is the one drawn; which group that is depends on the engine's internals.
- Chess rules are not modelled: move generation, legality, and what `try_play` does to a position. The engine is a parameter.
- Pixels are exact reals, and tile size is the constant 64. `f32` rounding, NaN and infinities are not modelled.
- Coords.CoordToSquare: does not model `usize` overflow of `y * 8`, because every caller passes a row below 8.
- The `Waiting` state is kept, and a click in it does nothing, but nothing ever enters it.
