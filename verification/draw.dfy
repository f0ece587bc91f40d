/**
 The decisions the renderer makes each frame that are not plain painting:
 the colour of each tile and which picker cell, if any, is highlighted.
 */
module Draw {
  import opened Options
  import opened Coords
  import opened Engine
  import opened VisualBoard

  /** A tile is painted in the light colour when its column and row add up to an even number. */
  predicate IsLightTile(x: nat, y: nat)
  {
    (x + y) % 2 == 0
  }

  /**
   The tile colouring is the usual chessboard one: a square is light exactly
   when its file and rank (both counted from 0) add up to an odd number, so
   a1 is dark and h1 light.
   */
  lemma TileColourFollowsChessConvention(x: nat, y: nat)
    requires InGrid(x, y)
    ensures IsLightTile(x, y) <==>
      (FileOf(CoordToSquare(x, y).value) + RankOf(CoordToSquare(x, y).value)) % 2 == 1
  {
    var s := CoordToSquare(x, y).value;
    assert FileOf(s) + RankOf(s) == (x + y) + 2 * (3 - y) + 1;
    OddShiftFlipsParity(x + y, 3 - y);
  }

  lemma OddShiftFlipsParity(n: int, k: int)
    ensures (n + 2 * k + 1) % 2 == 1 <==> n % 2 == 0
  {
  }

  /** Tiles that share an edge never share a colour. */
  lemma NeighbouringTilesDiffer(x: nat, y: nat)
    ensures IsLightTile(x, y) != IsLightTile(x + 1, y)
    ensures IsLightTile(x, y) != IsLightTile(x, y + 1)
  {
  }

  /** The picker cell painted as highlighted: the hovered cell, while promoting, if it is a picker cell. */
  function PickerHighlight<B>(ui: Ui<B>): Option<Coord>
  {
    if ui.state == Promoting && ui.hovered.Some? && IsPickerCell(ui.hovered.value) then ui.hovered
    else None
  }

  /** While promoting, a click resolves the promotion exactly when a picker cell is highlighted. */
  lemma HighlightMatchesAcceptedClick<B>(e: Engine<B>, ui: Ui<B>, target: Option<Square>)
    requires Valid(ui) && ui.state == Promoting
    ensures PickerHighlight(ui).Some? <==> Click(e, ui, target).ui.state == Playing
  {
    PromotingClick(e, ui, target);
  }
}
