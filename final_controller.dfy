/**
 * The MonoBehaviour `final` of finall.cs as an object: its fields, updated in
 * place by its routines, each proved to have the effect the rules in module
 * Final give it and to keep the invariant.
 */
module FinalController {
  import opened Chess
  import opened AttackMap
  import opened MoveGen
  import opened Controls
  import opened Final

  /** The check-aware controller; the scene's pieces are those of the running game. */
  class FinalBehaviour {
    var scene: Scene
    var selectedPiece: Option<nat>
    var highlightMarkers: seq<Highlight>
    var hasMoved: map<nat, bool>
    var capturablePieces: map<nat, Square>
    var isWhiteTurn: bool
    var isCheckDisplayed: bool
    var isPromotionInProgress: bool
    var pawnToPromote: Option<nat>
    var promotionPosition: Square
    var records: seq<Record>
    var notices: seq<Notice>
    const setup: Setup

    /** The fields as a state of module Final. */
    function State(): Game
      reads this
    {
      Game(Core(scene, selectedPiece, highlightMarkers, capturablePieces, hasMoved, TurnOf(isWhiteTurn)),
           isCheckDisplayed, isPromotionInProgress, pawnToPromote, promotionPosition, records, notices)
    }

    predicate Valid()
      reads this
    {
      GameValid(State())
    }

    /** A new game: the starting position, White to move, nothing selected or logged. */
    constructor (setup: Setup)
      ensures this.setup == setup && State() == InitialGame() && Valid()
    {
      this.setup := setup;
      scene := InitialGame().core.scene;
      selectedPiece := None;
      highlightMarkers := [];
      hasMoved := map[];
      capturablePieces := map[];
      isWhiteTurn := true;
      isCheckDisplayed := false;
      isPromotionInProgress := false;
      pawnToPromote := None;
      promotionPosition := Square(0, 0);
      records := [];
      notices := [];
      new;
      InitialGameValid();
    }

    method DeselectPiece()
      modifies this`selectedPiece, this`highlightMarkers, this`capturablePieces
      ensures State() == old(State()).(core := Deselect(old(State()).core))
      ensures selectedPiece == None && highlightMarkers == [] && capturablePieces == map[]
    {
      selectedPiece := None;
      highlightMarkers := [];
      capturablePieces := map[];
    }

    /** SelectPiece, with ShowValidMoves filling the markers and the capture map. */
    method SelectPiece(piece: nat)
      requires piece < |scene|
      modifies this`selectedPiece, this`highlightMarkers, this`capturablePieces, this`hasMoved
      ensures State() == old(State()).(core := Select(old(State()).core, piece, true))
    {
      ghost var c := State().core;
      DeselectPiece();
      var moved := if piece in hasMoved then hasMoved else hasMoved[piece := false];
      var hs, caps := ShowValidMoves(scene, piece, moved, true);
      selectedPiece, hasMoved, highlightMarkers, capturablePieces := Some(piece), moved, hs, caps;
      assert State() == old(State()).(core := c.(selected := Some(piece), hasMoved := moved, highlights := hs, capturable := caps));
      SelectIs(c, piece, true, moved, hs, caps);
    }

    method RecordMove(fromPos: Square, toPos: Square)
      modifies this`records
      ensures records == MoveLog(old(records), setup, fromPos, toPos)
    {
      if setup.replaying {
        return;
      }
      var gameId := setup.gameId;
      if gameId == -1 {
        return;
      }
      records := records + [MoveRecord(gameId, fromPos, toPos)];
    }

    method HandleCastling(fromX: int, toX: int, y: int)
      modifies this`scene, this`hasMoved
      ensures (scene, hasMoved) == Controls.HandleCastling(old(scene), old(hasMoved), fromX, toX, y)
    {
      var isKingside := toX > fromX;
      var rookX := if isKingside then 7 else 0;
      var rook := PieceAt(scene, Square(rookX, y));
      if rook.Some? && scene[rook.value].kind == Rook {
        var newRookX := if isKingside then toX - 1 else toX + 1;
        scene := MoveTo(scene, rook.value, Square(newRookX, y));
        hasMoved := hasMoved[rook.value := true];
      }
    }

    method StartPromotion(pawn: nat, position: Square)
      modifies this`isWhiteTurn, this`isPromotionInProgress, this`pawnToPromote, this`promotionPosition
      ensures State() == Final.StartPromotion(old(State()), setup, pawn, position)
    {
      if !setup.promotionUI {
        isWhiteTurn := !isWhiteTurn;
        return;
      }
      isPromotionInProgress := true;
      pawnToPromote := Some(pawn);
      promotionPosition := position;
    }

    /** CapturePiece's moves on the board: the selected piece to the enemy's square, the enemy out of the game. */
    method CaptureOnBoard(enemyPiece: nat)
      requires Addressable(State()) && selectedPiece.Some? && enemyPiece in capturablePieces
      modifies this`scene, this`hasMoved
      ensures (scene, hasMoved) == CaptureBoard(old(State()).core, enemyPiece)
    {
      var sel := selectedPiece.value;
      var targetPos := capturablePieces[enemyPiece];
      scene := MoveTo(scene, sel, targetPos);
      scene := Deactivate(scene, enemyPiece);
      hasMoved := hasMoved[sel := true];
    }

    method CapturePiece(enemyPiece: nat)
      requires Addressable(State()) && selectedPiece.Some?
      modifies this
      ensures State() == Final.CapturePiece(old(State()), setup, enemyPiece)
    {
      if enemyPiece !in capturablePieces {
        return;
      }
      ghost var g := State();
      var sel := selectedPiece.value;
      var targetPos := capturablePieces[enemyPiece];
      var fromPos := scene[sel].sq;
      var enemy := scene[enemyPiece];
      var mover := scene[sel];
      CaptureOnBoard(enemyPiece);
      RecordMove(fromPos, targetPos);
      assert State() == Final.RecordMove(WithBoard(g, CaptureBoard(g.core, enemyPiece)), setup, fromPos, targetPos);
      FinishCapture(enemy, sel, mover, targetPos);
      DeselectPiece();
    }

    /** The rest of CapturePiece: the end of the game, the promotion, or the turn passing. */
    method FinishCapture(enemy: Piece, sel: nat, mover: Piece, targetPos: Square)
      modifies this`records, this`notices, this`isWhiteTurn, this`isPromotionInProgress, this`pawnToPromote, this`promotionPosition
      ensures State() == CaptureOutcome(old(State()), setup, enemy, sel, mover, targetPos)
    {
      if enemy.kind == King {
        var gameId := setup.gameId;
        var playerId := setup.playerId;
        if gameId != -1 && playerId != -1 {
          records := records + [EndGameRecord(gameId, playerId)];
        }
        notices := notices + [DefeatNotice(enemy.color)];
      } else if ShouldPromote(mover, targetPos) {
        StartPromotion(sel, targetPos);
      } else {
        isWhiteTurn := !isWhiteTurn;
      }
    }

    /** TryMovePiece's moves on the board: what stood on the target goes, the rook of a castling, the piece itself. */
    method MoveOnBoard(target: Square)
      requires Addressable(State()) && selectedPiece.Some? && selectedPiece.value in hasMoved
      modifies this`scene, this`hasMoved
      ensures (scene, hasMoved) == MoveBoard(old(State()).core, target)
    {
      var sel := selectedPiece.value;
      var piece := scene[sel];
      var pieceAtTarget := PieceAt(scene, target);
      if pieceAtTarget.Some? && pieceAtTarget.value != sel {
        scene := Deactivate(scene, pieceAtTarget.value);
      }
      if piece.kind == King && !hasMoved[sel] {
        var currentX := piece.sq.x;
        if Abs(target.x - currentX) == 2 {
          HandleCastling(currentX, target.x, target.y);
        }
      }
      scene := MoveTo(scene, sel, target);
      hasMoved := hasMoved[sel := true];
    }

    /** The body of TryMovePiece's loop for the matching highlight. */
    method MoveSelected(target: Square)
      requires Addressable(State()) && selectedPiece.Some? && selectedPiece.value in hasMoved
      modifies this
      ensures State() == MoveStep(old(State()), setup, target)
    {
      ghost var g := State();
      var sel := selectedPiece.value;
      var fromPos := scene[sel].sq;
      var promotes := ShouldPromote(scene[sel], target);
      MoveOnBoard(target);
      RecordMove(fromPos, target);
      assert State() == Final.RecordMove(WithBoard(g, MoveBoard(g.core, target)), setup, fromPos, target);
      if promotes {
        StartPromotion(sel, target);
      } else {
        isWhiteTurn := !isWhiteTurn;
      }
    }

    method TryMovePiece(targetBoardPos: Square)
      requires Addressable(State()) && (selectedPiece.Some? ==> selectedPiece.value in hasMoved)
      modifies this
      ensures State() == Final.TryMovePiece(old(State()), setup, targetBoardPos)
    {
      if selectedPiece.None? {
        return;
      }
      ghost var g := State();
      var validMoveFound := false;
      for i := 0 to |highlightMarkers|
        invariant !validMoveFound && State() == g
        invariant forall j :: 0 <= j < i ==> highlightMarkers[j].sq != targetBoardPos
      {
        if highlightMarkers[i].sq == targetBoardPos {
          validMoveFound := true;
          MoveSelected(targetBoardPos);
          break;
        }
      }
      DeselectPiece();
    }

    method PromoteTo(pieceType: string)
      requires Valid()
      modifies this
      ensures State() == Final.PromoteTo(old(State()), setup, pieceType) && Valid()
    {
      ghost var g := State();
      PromoteToValid(g, setup, pieceType);
      if !isPromotionInProgress || pawnToPromote.None? {
        return;
      }
      ReplacePawn(pieceType);
      isPromotionInProgress := false;
      pawnToPromote := None;
      isWhiteTurn := !isWhiteTurn;
    }

    /** PromoteTo's instantiation of the new piece, its log entry and the pawn's removal. */
    method ReplacePawn(pieceType: string)
      requires Addressable(State()) && pawnToPromote.Some?
      modifies this`scene, this`records
      ensures State() == Promoted(old(State()), setup, pieceType)
    {
      var pawn := pawnToPromote.value;
      var newPiece := PromotionKind(pieceType);
      if newPiece.Some? {
        scene := scene + [Piece(newPiece.value, scene[pawn].color, promotionPosition, true)];
        var gameId := setup.gameId;
        if gameId != -1 {
          records := records + [PromotionRecord(gameId, promotionPosition, pieceType[0])];
        }
        scene := Deactivate(scene, pawn);
      }
    }

    /** Update's first check-message block. */
    method ShowCheckFirst(kingInCheck: bool)
      modifies this`notices, this`isCheckDisplayed
      ensures State() == CheckFirst(old(State()), kingInCheck)
    {
      if kingInCheck && !isCheckDisplayed {
        notices := notices + [CheckNotice(TurnOf(isWhiteTurn))];
        isCheckDisplayed := true;
      } else if !kingInCheck {
        isCheckDisplayed := false;
      }
    }

    /** Update's second check-message block, which repeats the first. */
    method ShowCheckSecond(kingInCheck: bool)
      modifies this`notices, this`isCheckDisplayed
      ensures State() == CheckSecond(old(State()), kingInCheck)
    {
      if kingInCheck && !isCheckDisplayed {
        notices := notices + [CheckNotice(TurnOf(isWhiteTurn))];
        isCheckDisplayed := true;
      } else if !kingInCheck && isCheckDisplayed {
        isCheckDisplayed := false;
      }
    }

    /** Update: one frame, with the click the raycast resolved. */
    method Update(click: Click)
      requires Valid()
      modifies this
      ensures State() == Final.Update(old(State()), setup, click) && Valid()
    {
      ghost var g := State();
      UpdateValid(g, setup, click);
      var kingInCheck := IsKingInCheck(scene, TurnOf(isWhiteTurn));
      if isPromotionInProgress {
        return;
      }
      ShowCheckFirst(kingInCheck);
      ShowCheckSecond(kingInCheck);
      match click {
        case NoClick =>
        case ClickPiece(clickedPiece) =>
          if clickedPiece < |scene| && scene[clickedPiece].active {
            if scene[clickedPiece].color != TurnOf(isWhiteTurn) {
              if selectedPiece.Some? && clickedPiece in capturablePieces {
                CapturePiece(clickedPiece);
              }
              return;
            }
            if selectedPiece == Some(clickedPiece) {
              DeselectPiece();
            } else {
              SelectPiece(clickedPiece);
            }
          }
        case ClickSquare(sq) =>
          if selectedPiece.Some? {
            TryMovePiece(sq);
          }
      }
    }
  }
}
