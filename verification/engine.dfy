/**
 The boundary to the chess-rules engine. The front-end never looks inside a
 board position; it asks three questions of the engine, which are supplied
 here as function values over an opaque board type `B`.
 */
module Engine {
  import opened Options
  import opened Coords

  datatype Piece = Pawn | Knight | Bishop | Rook | Queen | King

  /** A move from one square to another, with the piece a pawn promotes to, if any. */
  datatype Move = Move(from: Square, to: Square, promotion: Option<Piece>)

  /**
   The engine operations the front-end uses:
   - `pieceOn(b, s)`: the kind of piece standing on `s`, if any;
   - `legalMoves(b, s)`: the legal moves of the piece on `s`, in the order the
     engine generates them (a pawn move to the last rank appears once per
     promotion piece);
   - `tryPlay(b, m)`: the position after `m` when the engine accepts it, or
     `None` when it rejects it; a rejected move leaves the position as it was.
   */
  datatype Engine<!B> = Engine(
    pieceOn: (B, Square) -> Option<Piece>,
    legalMoves: (B, Square) -> seq<Move>,
    tryPlay: (B, Move) -> Option<B>)

  /** The position after attempting `m`: the new one on success, the old one on rejection. */
  function Play<B>(e: Engine<B>, b: B, m: Move): B
  {
    match e.tryPlay(b, m)
    case Some(b') => b'
    case None => b
  }

  /** Whether `m` goes to `to` and carries a promotion piece. */
  predicate IsPromotionTo(m: Move, to: Square)
  {
    m.to == to && m.promotion.Some?
  }

  /**
   Reference definition of the promotion check: some generated move lands on
   `to` with a promotion piece. `ScanForPromotion` below is the early-exit
   loop the front-end runs, proved to agree with it.
   */
  function HasPromotionTo(moves: seq<Move>, to: Square): (r: bool)
    ensures r <==> exists i | 0 <= i < |moves| :: IsPromotionTo(moves[i], to)
  {
    if |moves| == 0 then false
    else if IsPromotionTo(moves[0], to) then true
    else HasPromotionTo(moves[1..], to)
  }

  /**
   The scan as the front-end writes it: walk the generated moves in order and
   stop at the first one that lands on `to` with a promotion piece.
   */
  method ScanForPromotion(moves: seq<Move>, to: Square) returns (found: bool)
    ensures found <==> HasPromotionTo(moves, to)
  {
    var i := 0;
    while i < |moves|
      invariant 0 <= i <= |moves|
      invariant forall j | 0 <= j < i :: !IsPromotionTo(moves[j], to)
    {
      if IsPromotionTo(moves[i], to) {
        return true;
      }
      i := i + 1;
    }
    return false;
  }
}
