/**
 The coordinate mapper of the chess front-end: grid cells (file, row) with
 row 0 at the top of the screen, linear square indices 0..63 in the engine's
 order (a1 = 0, h1 = 7, a8 = 56), and canvas points measured in pixels.

 The Rust code works on `usize`; a subtraction that would go below zero panics
 in a debug build, and that outcome is modelled here as `None`.
 */
module Coords {
  import opened Options

  /** A square of the board, as the engine numbers it: file + 8 * rank. */
  type Square = i: int | 0 <= i < 64

  /** A grid cell: `file` counts columns from the left, `row` counts rows from the top. */
  datatype Coord = Coord(file: nat, row: nat)

  /** A point on the canvas, in pixels from its top-left corner. */
  datatype Point = Point(x: real, y: real)

  /** Side length of one tile in pixels; the front-end sets it once and never changes it. */
  const TileSize: real := 64.0

  predicate InGrid(x: nat, y: nat)
  {
    x < 8 && y < 8
  }

  /** Rank (0 for the first rank, 7 for the eighth) and file of a square. */
  function RankOf(s: Square): nat { s / 8 }
  function FileOf(s: Square): nat { s % 8 }

  /**
   Grid cell to square. The two `usize` subtractions of the Rust code are kept:
   `7 - x` and `63 - (y * 8 + (7 - x))`; either one going negative is `None`.
   */
  function CoordToSquare(x: nat, y: nat): (r: Option<Square>)
    ensures r.Some? <==> InGrid(x, y)
    ensures r.Some? ==> FileOf(r.value) == x && RankOf(r.value) == 7 - y
  {
    if x > 7 then None
    else
      var t := y * 8 + (7 - x);
      if t > 63 then None else Some(63 - t)
  }

  /** Square index to grid cell; `7 - index / 8` going negative is `None`. */
  function IndexToCoord(index: nat): (r: Option<Coord>)
    ensures r.Some? <==> index < 64
    ensures r.Some? ==> InGrid(r.value.file, r.value.row)
    ensures r.Some? ==> CoordToSquare(r.value.file, r.value.row) == Some(index)
  {
    if index / 8 > 7 then None else Some(Coord(index % 8, 7 - index / 8))
  }

  /** Every cell of the grid names a square, and mapping that square back gives the cell. */
  lemma CoordRoundTrip(x: nat, y: nat)
    requires InGrid(x, y)
    ensures CoordToSquare(x, y).Some?
    ensures IndexToCoord(CoordToSquare(x, y).value) == Some(Coord(x, y))
  {
  }

  /** Every square index names a cell, and mapping that cell back gives the index. */
  lemma IndexRoundTrip(i: nat)
    requires i < 64
    ensures IndexToCoord(i).Some?
    ensures CoordToSquare(IndexToCoord(i).value.file, IndexToCoord(i).value.row) == Some(i)
  {
  }

  /** The top row of the screen is the eighth rank: cells (x, 0) are squares 56..63, a8 to h8. */
  lemma TopRowIsEighthRank(x: nat)
    requires x < 8
    ensures CoordToSquare(x, 0) == Some(56 + x)
  {
  }

  /** Two different cells never name the same square. */
  lemma CoordToSquareInjective(x1: nat, y1: nat, x2: nat, y2: nat)
    requires InGrid(x1, y1) && InGrid(x2, y2)
    requires CoordToSquare(x1, y1) == CoordToSquare(x2, y2)
    ensures x1 == x2 && y1 == y2
  {
    CoordRoundTrip(x1, y1);
    CoordRoundTrip(x2, y2);
  }

  /**
   The cell under a canvas point, or `None` when the point, divided by the
   tile size, falls outside [0, 8) on either axis. Inside, `as usize` on a
   non-negative value truncates, which is the floor.
   */
  function CellAt(p: Point): (r: Option<Coord>)
    ensures r.Some? <==> 0.0 <= p.x < 8.0 * TileSize && 0.0 <= p.y < 8.0 * TileSize
    ensures r.Some? ==> InGrid(r.value.file, r.value.row)
    ensures r.Some? ==> CellContains(r.value, p)
  {
    var gx := p.x / TileSize;
    var gy := p.y / TileSize;
    if gx >= 8.0 || gx < 0.0 || gy >= 8.0 || gy < 0.0 then None
    else Some(Coord(gx.Floor, gy.Floor))
  }

  /** The pixel area a cell covers on the canvas. */
  predicate CellContains(c: Coord, p: Point)
  {
    && c.file as real * TileSize <= p.x < (c.file as real + 1.0) * TileSize
    && c.row as real * TileSize <= p.y < (c.row as real + 1.0) * TileSize
  }

  /** `CellAt` picks the one grid cell whose pixel area holds the point, and only that one. */
  lemma CellAtIsTheContainingCell(c: Coord, p: Point)
    requires InGrid(c.file, c.row)
    ensures CellAt(p) == Some(c) <==> CellContains(c, p)
  {
    if CellContains(c, p) {
      var r := CellAt(p);
      assert r.Some?;
      CellsAreDisjoint(r.value, c, p);
    }
  }

  lemma CellsAreDisjoint(a: Coord, b: Coord, p: Point)
    requires CellContains(a, p) && CellContains(b, p)
    ensures a == b
  {
    assert a.file as real < b.file as real + 1.0;
    assert b.file as real < a.file as real + 1.0;
    assert a.row as real < b.row as real + 1.0;
    assert b.row as real < a.row as real + 1.0;
  }

  /** The square under a canvas point, or `None` off the board. */
  function SquareFromPoint(p: Point): (r: Option<Square>)
    ensures r.Some? <==> CellAt(p).Some?
    ensures r.Some? ==> IndexToCoord(r.value) == CellAt(p)
  {
    match CellAt(p)
    case None => None
    case Some(c) => CoordToSquare(c.file, c.row)
  }

  /** The centre pixel of a cell. */
  function CellCentre(c: Coord): Point
  {
    Point((c.file as real + 0.5) * TileSize, (c.row as real + 0.5) * TileSize)
  }

  /** Clicking the centre of the cell drawn for square `s` selects `s`. */
  lemma CentreOfSquareMapsBack(s: Square)
    ensures SquareFromPoint(CellCentre(IndexToCoord(s).value)) == Some(s)
  {
    var c := IndexToCoord(s).value;
    CellAtIsTheContainingCell(c, CellCentre(c));
  }
}
