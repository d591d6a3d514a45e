/**
 * ChessPieceMover.cs, the older interaction controller: the same selection,
 * highlights and board changes as finall.cs, but the king's moves are not
 * filtered by attacks, nothing detects check or the capture of a king,
 * nothing is logged, and promotion is a stub that leaves the pawn a pawn.
 */
module Mover {
  import opened Chess
  import opened AttackMap
  import opened MoveGen
  import opened MoveGenFacts
  import opened Controls

  /**
   * CapturePiece: nothing unless `enemy` is in `capturablePieces`; otherwise
   * the selected piece takes its place, the turn passes, whatever was taken,
   * and the selection is dropped.
   */
  function CapturePiece(c: Core, enemy: nat): Core
    requires c.selected.Some? && c.selected.value < |c.scene| && enemy < |c.scene|
  {
    if enemy !in c.capturable then c
    else
      var (s, hm) := CaptureBoard(c, enemy);
      Deselect(c.(scene := s, hasMoved := hm, turn := Opponent(c.turn)))
  }

  /**
   * TryMovePiece: a click on a highlighted square moves the selected piece
   * there and passes the turn; the selection is dropped either way.
   */
  function TryMovePiece(c: Core, sq: Square): Core
    requires Addressed(c)
  {
    if c.selected.None? then c
    else if Matches(c.highlights, sq) then
      var (s, hm) := MoveBoard(c, sq);
      Deselect(c.(scene := s, hasMoved := hm, turn := Opponent(c.turn)))
    else Deselect(c)
  }

  /** Update: one frame, with the click the raycast resolved. */
  function Update(c: Core, click: Click): Core
    requires Addressed(c)
  {
    match click
    case NoClick => c
    case ClickPiece(id) =>
      if id >= |c.scene| || !c.scene[id].active then c
      else if c.scene[id].color != c.turn then
        if c.selected.Some? && id in c.capturable then CapturePiece(c, id) else c
      else if c.selected == Some(id) then Deselect(c)
      else Select(c, id, false)
    case ClickSquare(sq) =>
      if c.selected.Some? then TryMovePiece(c, sq) else c
  }

  // ---------------------------------------------------------------------------
  // Lemmas

  /**
   * A capture always passes the turn, to the side of the captured piece: the
   * selected piece stands on the enemy's square and the enemy is out of the
   * game, even when it was the king, and the invariant is kept.
   */
  lemma CapturePassesTurn(c: Core, enemy: nat)
    requires CoreValid(c, false) && c.selected.Some? && enemy < |c.scene| && enemy in c.capturable
    ensures var r := CapturePiece(c, enemy);
      && r.turn == Opponent(c.turn) && r.turn == c.scene[enemy].color
      && StandsOn(r.scene, c.selected.value, c.capturable[enemy]) && !r.scene[enemy].active
      && Moved(r.hasMoved, c.selected.value)
      && r.selected.None? && CoreValid(r, false)
  {
    CaptureBoardValid(c, enemy, false);
    var (s, hm) := CaptureBoard(c, enemy);
    DeselectValid(c.(scene := s, hasMoved := hm), false, Opponent(c.turn));
  }

  /**
   * A click on a square passes the turn exactly when a highlight stands on it:
   * then the selected piece, still of its kind, is the piece on that square (a
   * pawn reaching the last rank stays a pawn); otherwise only the selection is
   * dropped.  The invariant is kept either way.
   */
  lemma TryMoveTurn(c: Core, sq: Square)
    requires CoreValid(c, false) && c.selected.Some?
    ensures var r := TryMovePiece(c, sq); var k := c.selected.value;
      && r.selected.None? && CoreValid(r, false)
      && (r.turn == Opponent(c.turn) <==> Matches(c.highlights, sq))
      && (!Matches(c.highlights, sq) ==> r == Deselect(c))
      && (Matches(c.highlights, sq) ==>
            && PieceAt(r.scene, sq) == Some(k) && Moved(r.hasMoved, k)
            && r.scene[k].kind == c.scene[k].kind && r.scene[k].color == c.scene[k].color)
  {
    if Matches(c.highlights, sq) {
      MoveBoardValid(c, sq, false);
      MoveBoardKeepsPiece(c, sq, false);
      var (s, hm) := MoveBoard(c, sq);
      DeselectValid(c.(scene := s, hasMoved := hm), false, Opponent(c.turn));
    } else {
      DeselectValid(c, false, c.turn);
    }
  }

  /**
   * Clicking a piece of the other side that is not in the capture map changes
   * nothing, and clicking the selected piece again only deselects it.
   */
  lemma ClickPieceRules(c: Core, id: nat)
    requires Addressed(c) && id < |c.scene| && c.scene[id].active
    ensures c.scene[id].color != c.turn && id !in c.capturable ==> Update(c, ClickPiece(id)) == c
    ensures c.selected == Some(id) && c.scene[id].color == c.turn ==> Update(c, ClickPiece(id)) == Deselect(c)
  {
  }

  /** A frame keeps the invariant. */
  lemma UpdateValid(c: Core, click: Click)
    requires CoreValid(c, false)
    ensures CoreValid(Update(c, click), false)
  {
    match click {
      case NoClick =>
      case ClickSquare(sq) =>
        if c.selected.Some? {
          TryMoveTurn(c, sq);
        }
      case ClickPiece(id) =>
        if id < |c.scene| && c.scene[id].active {
          if c.scene[id].color != c.turn {
            if c.selected.Some? && id in c.capturable {
              CapturePassesTurn(c, id);
            }
          } else if c.selected == Some(id) {
            DeselectValid(c, false, c.turn);
          } else {
            SelectValid(c, id, false);
          }
        }
    }
  }

  /**
   * The king of this controller offers the adjacent squares whatever attacks
   * them: the check-aware king offers a highlight exactly when this one does
   * and the square is not attacked or the highlight is a castling one.
   */
  lemma UnfilteredKing(s: Scene, k: nat, hasMoved: map<nat, bool>, h: Highlight)
    requires k < |s| && k in hasMoved && s[k].kind == King
    ensures var castling := if !hasMoved[k] then Castling(s, hasMoved, s[k].sq, s[k].color) else [];
      h in Highlights(s, k, hasMoved, true) <==>
        h in Highlights(s, k, hasMoved, false) && (!UnderAttack(s, h.sq, s[k].color) || h in castling)
  {
    AwareStepsSafe(s, s[k].sq, s[k].color, h);
  }
}
