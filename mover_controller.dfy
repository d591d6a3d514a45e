/**
 * The MonoBehaviour ChessPieceMovementController of ChessPieceMover.cs as an
 * object: its fields, updated in place by its routines, each proved to have
 * the effect the rules in module Mover give it and to keep the invariant.
 */
module MoverController {
  import opened Chess
  import opened MoveGen
  import opened Controls
  import opened Mover

  /** ChessPieceMovementController; the scene's pieces are those of the running game. */
  class MovementController {
    var scene: Scene
    var selectedPiece: Option<nat>
    var highlightMarkers: seq<Highlight>
    var hasMoved: map<nat, bool>
    var capturablePieces: map<nat, Square>
    var isWhiteTurn: bool

    /** The fields as a state of module Controls. */
    function State(): Core
      reads this
    {
      Core(scene, selectedPiece, highlightMarkers, capturablePieces, hasMoved, TurnOf(isWhiteTurn))
    }

    predicate Valid()
      reads this
    {
      CoreValid(State(), false)
    }

    /** The controller over the pieces of the scene, White to move, nothing selected or tracked. */
    constructor (pieces: Scene)
      ensures State() == Core(pieces, None, [], map[], map[], White)
      ensures SceneValid(pieces, map[]) ==> Valid()
    {
      scene := pieces;
      selectedPiece := None;
      highlightMarkers := [];
      hasMoved := map[];
      capturablePieces := map[];
      isWhiteTurn := true;
    }

    method DeselectPiece()
      modifies this`selectedPiece, this`highlightMarkers, this`capturablePieces
      ensures State() == Deselect(old(State()))
      ensures selectedPiece == None && highlightMarkers == [] && capturablePieces == map[]
    {
      selectedPiece := None;
      highlightMarkers := [];
      capturablePieces := map[];
    }

    /** SelectPiece, with ShowValidMoves filling the markers and the capture map. */
    method SelectPiece(piece: nat)
      requires piece < |scene|
      modifies this`selectedPiece, this`highlightMarkers, this`capturablePieces, this`hasMoved
      ensures State() == Select(old(State()), piece, false)
    {
      ghost var c := State();
      DeselectPiece();
      var moved := if piece in hasMoved then hasMoved else hasMoved[piece := false];
      var hs, caps := ShowValidMoves(scene, piece, moved, false);
      selectedPiece, hasMoved, highlightMarkers, capturablePieces := Some(piece), moved, hs, caps;
      assert State() == c.(selected := Some(piece), hasMoved := moved, highlights := hs, capturable := caps);
      SelectIs(c, piece, false, moved, hs, caps);
    }

    method CapturePiece(enemyPiece: nat)
      requires selectedPiece.Some? && selectedPiece.value < |scene| && enemyPiece < |scene|
      modifies this`scene, this`hasMoved, this`isWhiteTurn, this`selectedPiece, this`highlightMarkers, this`capturablePieces
      ensures State() == Mover.CapturePiece(old(State()), enemyPiece)
    {
      if enemyPiece !in capturablePieces {
        return;
      }
      var sel := selectedPiece.value;
      highlightMarkers := [];
      var targetPos := capturablePieces[enemyPiece];
      scene := MoveTo(scene, sel, targetPos);
      scene := Deactivate(scene, enemyPiece);
      hasMoved := hasMoved[sel := true];
      isWhiteTurn := !isWhiteTurn;
      DeselectPiece();
    }

    method HandleCastling(fromX: int, toX: int, y: int)
      modifies this`scene, this`hasMoved
      ensures (scene, hasMoved) == Controls.HandleCastling(old(scene), old(hasMoved), fromX, toX, y)
    {
      var isKingside := toX > fromX;
      var rookX := if isKingside then 7 else 0;
      var rook := PieceAt(scene, Square(rookX, y));
      if rook.Some? && scene[rook.value].kind == Rook {
        var newRookX := if isKingside then toX - 1 else toX + 1;
        scene := MoveTo(scene, rook.value, Square(newRookX, y));
        hasMoved := hasMoved[rook.value := true];
      }
    }

    /** The body of TryMovePiece's loop for the matching highlight. */
    method ClearForMove(target: Square)
      requires selectedPiece.Some? && selectedPiece.value < |scene| && selectedPiece.value in hasMoved
      modifies this`scene, this`hasMoved
      ensures (scene, hasMoved) == Controls.ClearForMove(old(State()), target)
    {
      var sel := selectedPiece.value;
      var piece := scene[sel];
      var pieceAtTarget := PieceAt(scene, target);
      if pieceAtTarget.Some? && pieceAtTarget.value != sel {
        scene := Deactivate(scene, pieceAtTarget.value);
      }
      if piece.kind == King && !hasMoved[sel] {
        var currentX := piece.sq.x;
        if Abs(target.x - currentX) == 2 {
          HandleCastling(currentX, target.x, target.y);
        }
      }
    }

    /** The promotion stub: it only writes a line to Unity's log. */
    method PromotePawn(pawn: nat)
    {
    }

    method TryMovePiece(targetBoardPos: Square)
      requires Addressed(State()) && (selectedPiece.Some? ==> selectedPiece.value in hasMoved)
      modifies this`scene, this`hasMoved, this`isWhiteTurn, this`selectedPiece, this`highlightMarkers, this`capturablePieces
      ensures State() == Mover.TryMovePiece(old(State()), targetBoardPos)
    {
      if selectedPiece.None? {
        return;
      }
      ghost var c := State();
      var validMoveFound := false;
      for i := 0 to |highlightMarkers|
        invariant !validMoveFound && State() == c
        invariant forall j :: 0 <= j < i ==> highlightMarkers[j].sq != targetBoardPos
      {
        if highlightMarkers[i].sq == targetBoardPos {
          validMoveFound := true;
          ClearForMove(targetBoardPos);
          break;
        }
      }
      if validMoveFound {
        var sel := selectedPiece.value;
        scene := MoveTo(scene, sel, targetBoardPos);
        hasMoved := hasMoved[sel := true];
        if scene[sel].kind == Pawn && (targetBoardPos.y == 7 || targetBoardPos.y == 0) {
          PromotePawn(sel);
        }
        isWhiteTurn := !isWhiteTurn;
      }
      DeselectPiece();
    }

    /** Update: one frame, with the click the raycast resolved. */
    method Update(click: Click)
      requires Valid()
      modifies this
      ensures State() == Mover.Update(old(State()), click) && Valid()
    {
      ghost var c := State();
      UpdateValid(c, click);
      match click {
        case NoClick =>
        case ClickPiece(clickedPiece) =>
          if clickedPiece < |scene| && scene[clickedPiece].active {
            if scene[clickedPiece].color != TurnOf(isWhiteTurn) {
              if selectedPiece.Some? && clickedPiece in capturablePieces {
                CapturePiece(clickedPiece);
              }
              return;
            }
            if selectedPiece == Some(clickedPiece) {
              DeselectPiece();
            } else {
              SelectPiece(clickedPiece);
            }
          }
        case ClickSquare(sq) =>
          if selectedPiece.Some? {
            TryMovePiece(sq);
          }
      }
    }
  }
}
