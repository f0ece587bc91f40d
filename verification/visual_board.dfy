/**
 The interaction state machine of the chess front-end: it turns clicks and
 cursor movements into selections, move attempts and the two-step pawn
 promotion (click the destination, then click one of four picker cells).
 */
module VisualBoard {
  import opened Options
  import opened Coords
  import opened Engine

  /** `Waiting` exists in the Rust code but nothing ever enters it. */
  datatype State = Playing | Waiting | Promoting

  datatype Message = Clicked(at: Point) | CursorMoved(at: Point)

  /** The part of the front-end's state that input handling reads and writes. */
  datatype Ui<B> = Ui(
    board: B,
    selected: Option<Square>,
    promotionSquare: Option<Square>,
    state: State,
    hovered: Option<Coord>)

  /** Ways the Rust click handler can panic. */
  datatype Fault =
    | UnwrapOfNone           // `selected` or `promotion_square` unwrapped while `None`
    | UnknownPromotionPiece  // the catch-all arm of the picker's piece match

  /** The result of handling one message: the next state, or a panic. */
  datatype Outcome<B> = Done(ui: Ui<B>) | Panicked(fault: Fault)

  /**
   What the handler can rely on between messages: `Waiting` is never entered,
   a pending promotion always has both its squares, and no promotion square
   lingers once play resumes.
   */
  predicate Valid<B>(ui: Ui<B>)
  {
    && ui.state != Waiting
    && (ui.state == Promoting ==> ui.selected.Some? && ui.promotionSquare.Some?)
    && (ui.state == Playing ==> ui.promotionSquare.None?)
  }

  /** The state the front-end starts in, over the engine's starting position `start`. */
  function Initial<B>(start: B): (ui: Ui<B>)
    ensures Valid(ui) && ui.board == start
    ensures ui.selected.None? && ui.hovered.None?
  {
    Ui(start, None, None, Playing, None)
  }

  /** The four picker cells shown while promoting: files 2 to 5 of row 4. */
  predicate IsPickerCell(c: Coord)
  {
    2 <= c.file <= 5 && c.row == 4
  }

  /** The piece offered on picker file `file`, or `None` for the catch-all arm. */
  function PromotionPiece(file: nat): (r: Option<Piece>)
    ensures r.Some? <==> 2 <= file <= 5
    ensures r.Some? ==> r.value != Pawn && r.value != King
  {
    match file
    case 2 => Some(Rook)
    case 3 => Some(Knight)
    case 4 => Some(Bishop)
    case 5 => Some(Queen)
    case _ => None
  }

  /**
   The picker offers each of the four promotion pieces on exactly one cell,
   rook, knight, bishop and queen in ascending file order.
   */
  lemma PickerOffersEachPieceOnce()
    ensures [PromotionPiece(2), PromotionPiece(3), PromotionPiece(4), PromotionPiece(5)] ==
      [Some(Rook), Some(Knight), Some(Bishop), Some(Queen)]
    ensures forall x1, x2 | 2 <= x1 <= 5 && 2 <= x2 <= 5 && x1 != x2 ::
      PromotionPiece(x1) != PromotionPiece(x2)
    ensures (set x: nat | 2 <= x <= 5 :: PromotionPiece(x).value) == {Rook, Knight, Bishop, Queen}
  {
    var offered := set x: nat | 2 <= x <= 5 :: PromotionPiece(x).value;
    assert PromotionPiece(2).value == Rook && PromotionPiece(3).value == Knight;
    assert PromotionPiece(4).value == Bishop && PromotionPiece(5).value == Queen;
  }

  /** Whether moving the piece on `s` to `t` needs a promotion choice first. */
  predicate NeedsPromotion<B>(e: Engine<B>, b: B, s: Square, t: Square)
  {
    e.pieceOn(b, s) == Some(Pawn) && HasPromotionTo(e.legalMoves(b, s), t)
  }

  /** A click while playing: pause for a promotion choice, or try the move, then select the clicked square. */
  function ClickWhilePlaying<B>(e: Engine<B>, ui: Ui<B>, target: Option<Square>): Ui<B>
  {
    if ui.selected.Some? && target.Some? then
      var s, t := ui.selected.value, target.value;
      if NeedsPromotion(e, ui.board, s, t) then
        ui.(promotionSquare := Some(t), state := Promoting)
      else
        ui.(board := Play(e, ui.board, Move(s, t, None)), selected := target)
    else
      ui.(selected := target)
  }

  /** A click while promoting: only a hovered picker cell commits the promotion. */
  function ClickWhilePromoting<B>(e: Engine<B>, ui: Ui<B>, target: Option<Square>): Outcome<B>
  {
    match ui.hovered
    case None => Done(ui)
    case Some(c) =>
      if !IsPickerCell(c) then Done(ui)
      else
        match PromotionPiece(c.file)
        case None => Panicked(UnknownPromotionPiece)
        case Some(piece) =>
          if ui.selected.None? || ui.promotionSquare.None? then Panicked(UnwrapOfNone)
          else
            var m := Move(ui.selected.value, ui.promotionSquare.value, Some(piece));
            Done(ui.(board := Play(e, ui.board, m), state := Playing,
                     selected := target, promotionSquare := None))
  }

  /**
   A click, given the square under it (`None` off the board). The Rust code maps
   the point to a square where each branch needs it; the mapping is pure, so
   mapping once up front is the same.
   */
  function Click<B>(e: Engine<B>, ui: Ui<B>, target: Option<Square>): (r: Outcome<B>)
    ensures Valid(ui) ==> r.Done? && Valid(r.ui)
  {
    match ui.state
    case Playing => Done(ClickWhilePlaying(e, ui, target))
    case Waiting => Done(ui)
    case Promoting => ClickWhilePromoting(e, ui, target)
  }

  /** Handle one message. From a valid state it never panics and the result is valid again. */
  function Update<B>(e: Engine<B>, ui: Ui<B>, msg: Message): (r: Outcome<B>)
    ensures Valid(ui) ==> r.Done? && Valid(r.ui)
  {
    match msg
    case Clicked(p) => Click(e, ui, SquareFromPoint(p))
    case CursorMoved(p) => Done(ui.(hovered := CellAt(p)))
  }

  /** Handle a sequence of messages in arrival order, stopping at the first panic. */
  function Run<B>(e: Engine<B>, ui: Ui<B>, msgs: seq<Message>): Outcome<B>
    decreases |msgs|
  {
    if |msgs| == 0 then Done(ui)
    else
      match Update(e, ui, msgs[0])
      case Panicked(f) => Panicked(f)
      case Done(next) => Run(e, next, msgs[1..])
  }

  /** Every message sequence from a valid state runs without a panic and ends valid. */
  lemma {:induction false} RunKeepsValid<B>(e: Engine<B>, ui: Ui<B>, msgs: seq<Message>)
    requires Valid(ui)
    ensures Run(e, ui, msgs).Done? && Valid(Run(e, ui, msgs).ui)
    decreases |msgs|
  {
    if |msgs| > 0 {
      RunKeepsValid(e, Update(e, ui, msgs[0]).ui, msgs[1..]);
    }
  }

  /** From the starting state no input ever makes the unwraps or the catch-all arm panic, or enters `Waiting`. */
  lemma NeverPanicsFromStart<B>(e: Engine<B>, start: B, msgs: seq<Message>)
    ensures Run(e, Initial(start), msgs).Done?
    ensures Run(e, Initial(start), msgs).ui.state != Waiting
  {
    RunKeepsValid(e, Initial(start), msgs);
  }

  /** The invariant is what keeps the unwraps safe: without a selection, a picker click would panic. */
  lemma PromotingWithoutSelectionPanics<B>(e: Engine<B>, ui: Ui<B>, target: Option<Square>)
    requires ui.state == Promoting && ui.selected.None?
    requires ui.hovered.Some? && IsPickerCell(ui.hovered.value)
    ensures !Valid(ui)
    ensures Click(e, ui, target) == Panicked(UnwrapOfNone)
  {
  }

  /**
   Promotion detection: with a pawn selected whose generated moves include a
   promotion to the clicked square, the click pauses for the choice and keeps
   the selection and the position.
   */
  lemma ClickDetectsPromotion<B>(e: Engine<B>, ui: Ui<B>, s: Square, t: Square)
    requires ui.state == Playing && ui.selected == Some(s)
    requires NeedsPromotion(e, ui.board, s, t)
    ensures Click(e, ui, Some(t)).Done?
    ensures Click(e, ui, Some(t)).ui.state == Promoting
    ensures Click(e, ui, Some(t)).ui.promotionSquare == Some(t)
    ensures Click(e, ui, Some(t)).ui.selected == Some(s)
    ensures Click(e, ui, Some(t)).ui.board == ui.board
    ensures Click(e, ui, Some(t)).ui.hovered == ui.hovered
  {
  }

  /**
   Any other click while playing keeps playing, leaves the promotion square
   alone, selects the clicked square (or nothing, off the board), and changes
   the position only through one promotion-less move attempt from the old
   selection to the clicked square, made only when both exist.
   */
  lemma OrdinaryClick<B>(e: Engine<B>, ui: Ui<B>, target: Option<Square>)
    requires ui.state == Playing
    requires !(ui.selected.Some? && target.Some? && NeedsPromotion(e, ui.board, ui.selected.value, target.value))
    ensures Click(e, ui, target).Done?
    ensures Click(e, ui, target).ui.state == Playing
    ensures Click(e, ui, target).ui.promotionSquare == ui.promotionSquare
    ensures Click(e, ui, target).ui.selected == target
    ensures Click(e, ui, target).ui.hovered == ui.hovered
    ensures Click(e, ui, target).ui.board ==
      if ui.selected.Some? && target.Some?
      then Play(e, ui.board, Move(ui.selected.value, target.value, None))
      else ui.board
  {
  }

  /** A move the engine rejects only moves the selection to the clicked square. */
  lemma RejectedMoveOnlyReselects<B>(e: Engine<B>, ui: Ui<B>, s: Square, t: Square)
    requires ui.state == Playing && ui.selected == Some(s)
    requires !NeedsPromotion(e, ui.board, s, t)
    requires e.tryPlay(ui.board, Move(s, t, None)).None?
    ensures Click(e, ui, Some(t)) == Done(ui.(selected := Some(t)))
  {
  }

  /**
   A click while promoting is accepted exactly when the hovered cell is a
   picker cell; it then plays the pending move with that cell's piece and
   resumes play. Any other click changes nothing.
   */
  lemma PromotingClick<B>(e: Engine<B>, ui: Ui<B>, target: Option<Square>)
    requires Valid(ui) && ui.state == Promoting
    ensures Click(e, ui, target).Done?
    ensures Click(e, ui, target).ui.state == Playing <==>
      ui.hovered.Some? && IsPickerCell(ui.hovered.value)
    ensures ui.hovered.Some? && IsPickerCell(ui.hovered.value) ==>
      var piece := PromotionPiece(ui.hovered.value.file);
      && piece.Some?
      && Click(e, ui, target).ui ==
           Ui(Play(e, ui.board, Move(ui.selected.value, ui.promotionSquare.value, piece)),
              target, None, Playing, ui.hovered)
    ensures !(ui.hovered.Some? && IsPickerCell(ui.hovered.value)) ==>
      Click(e, ui, target) == Done(ui)
  {
  }

  /**
   Clicks never touch the hovered cell: it keeps whatever the last cursor
   movement recorded, also across the end of one promotion and the start of
   the next.
   */
  lemma ClicksKeepHover<B>(e: Engine<B>, ui: Ui<B>, target: Option<Square>)
    requires Click(e, ui, target).Done?
    ensures Click(e, ui, target).ui.hovered == ui.hovered
  {
  }

  /** A click while waiting does nothing. */
  lemma WaitingClickIsNoOp<B>(e: Engine<B>, ui: Ui<B>, target: Option<Square>)
    requires ui.state == Waiting
    ensures Click(e, ui, target) == Done(ui)
  {
  }

  /** A cursor movement only records the hovered cell; repeating it changes nothing further. */
  lemma CursorMoveOnlyHovers<B>(e: Engine<B>, ui: Ui<B>, p: Point)
    ensures Update(e, ui, CursorMoved(p)).Done?
    ensures Update(e, ui, CursorMoved(p)).ui == ui.(hovered := CellAt(p))
    ensures Update(e, Update(e, ui, CursorMoved(p)).ui, CursorMoved(p)) == Update(e, ui, CursorMoved(p))
  {
  }

  /** Running two messages is handling the first and then the second. */
  lemma RunTwo<B>(e: Engine<B>, ui: Ui<B>, m1: Message, m2: Message)
    requires Update(e, ui, m1).Done?
    ensures Run(e, ui, [m1, m2]) == Update(e, Update(e, ui, m1).ui, m2)
  {
    assert [m1, m2][1..] == [m2];
    var next := Update(e, ui, m1).ui;
    assert [m2][1..] == [];
    match Update(e, next, m2)
    case Panicked(f) =>
    case Done(u) => assert Run(e, u, []) == Done(u);
  }

  /**
   Moving to the centre of the picker cell at file 4 and clicking promotes to
   a bishop, clears the pending promotion and resumes play.
   */
  lemma HoverThenClickPromotesToBishop<B>(e: Engine<B>, ui: Ui<B>, p: Point)
    requires Valid(ui) && ui.state == Promoting
    ensures Run(e, ui, [CursorMoved(CellCentre(Coord(4, 4))), Clicked(p)]) ==
      Done(Ui(Play(e, ui.board, Move(ui.selected.value, ui.promotionSquare.value, Some(Bishop))),
              SquareFromPoint(p), None, Playing, Some(Coord(4, 4))))
  {
    CellAtIsTheContainingCell(Coord(4, 4), CellCentre(Coord(4, 4)));
    RunTwo(e, ui, CursorMoved(CellCentre(Coord(4, 4))), Clicked(p));
  }

  /**
   From the starting position, clicking inside e2 and then inside e4 tries
   exactly the move e2-e4 without promotion and leaves e4 selected, unless
   the engine reports a pawn promotion from e2 to e4.
   */
  lemma OpeningPawnPush<B>(e: Engine<B>, start: B)
    requires !NeedsPromotion(e, start, 12, 28)
    ensures Run(e, Initial(start), [Clicked(CellCentre(Coord(4, 6))), Clicked(CellCentre(Coord(4, 4)))]) ==
      Done(Ui(Play(e, start, Move(12, 28, None)), Some(28), None, Playing, None))
  {
    var e2, e4 := CellCentre(Coord(4, 6)), CellCentre(Coord(4, 4));
    assert IndexToCoord(12) == Some(Coord(4, 6));
    assert IndexToCoord(28) == Some(Coord(4, 4));
    CentreOfSquareMapsBack(12);
    CentreOfSquareMapsBack(28);
    var first := Update(e, Initial(start), Clicked(e2)).ui;
    assert first == Initial(start).(selected := Some(12));
    RunTwo(e, Initial(start), Clicked(e2), Clicked(e4));
  }
}
