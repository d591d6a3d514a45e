/**
 * The rules of the check-aware controller of finall.cs (class `final`), one
 * frame at a time: the check message, clicks on pieces and squares, captures
 * (a captured king ends the game), moves onto highlighted squares, pawn
 * promotion, and what is written to the game log.
 *
 * The log is abstract: `records` holds what is passed to
 * `DatabaseManager.RecordMove` and `DatabaseManager.EndGame`, and `notices`
 * what the message panel is asked to show.
 */
module Final {
  import opened Chess
  import opened AttackMap
  import opened MoveGen
  import opened MoveGenFacts
  import opened Controls
  import opened Notation
  import opened Board

  /**
   * What the controller reads from `PlayerPrefs` and the inspector: whether a
   * replay is running, the current game and player ids (-1 when absent), and
   * whether the promotion panel is assigned.
   */
  datatype Setup = Setup(replaying: bool, gameId: int, playerId: int, promotionUI: bool)

  /** One call into the database: a move, a promotion, or the end of the game. */
  datatype Record =
    | MoveRecord(gameId: int, from: Square, to: Square)
    | PromotionRecord(gameId: int, sq: Square, letter: char)
    | EndGameRecord(gameId: int, playerId: int)

  /** A message shown on the check panel: a king in check, or a side that lost. */
  datatype Notice = CheckNotice(side: Color) | DefeatNotice(loser: Color)

  /** The state of `final` between frames. */
  datatype Game = Game(
    core: Core,
    checkDisplayed: bool,
    promoting: bool,
    pawnToPromote: Option<nat>,
    promotionSquare: Square,
    records: seq<Record>,
    notices: seq<Notice>)

  /** The pieces the state refers to exist. */
  predicate Addressable(g: Game)
  {
    && Addressed(g.core)
    && (forall p :: p in g.core.capturable ==> p < |g.core.scene|)
    && (g.pawnToPromote.Some? ==> g.pawnToPromote.value < |g.core.scene|)
  }

  /** `isWhiteTurn = !isWhiteTurn`. */
  function Flip(g: Game): Game
  {
    g.(core := g.core.(turn := Opponent(g.core.turn)))
  }

  /** The board part of an action takes effect. */
  function WithBoard(g: Game, b: (Scene, map<nat, bool>)): Game
  {
    g.(core := g.core.(scene := b.0, hasMoved := b.1))
  }

  /** The log after RecordMove: nothing during a replay or without a current game. */
  function MoveLog(records: seq<Record>, setup: Setup, from: Square, to: Square): seq<Record>
  {
    if setup.replaying || setup.gameId == -1 then records
    else records + [MoveRecord(setup.gameId, from, to)]
  }

  function RecordMove(g: Game, setup: Setup, from: Square, to: Square): Game
  {
    g.(records := MoveLog(g.records, setup, from, to))
  }

  /** ShouldPromotePawn: a pawn reaching the far rank of its side. */
  predicate ShouldPromote(p: Piece, sq: Square)
  {
    p.kind == Pawn && ((p.color == White && sq.y == 7) || (p.color == Black && sq.y == 0))
  }

  /** StartPromotion: without a promotion panel the turn simply passes. */
  function StartPromotion(g: Game, setup: Setup, pawn: nat, sq: Square): Game
  {
    if !setup.promotionUI then Flip(g)
    else g.(promoting := true, pawnToPromote := Some(pawn), promotionSquare := sq)
  }

  /** The log after a king was captured; EndGame is called only with both ids known. */
  function EndGameLog(records: seq<Record>, setup: Setup): seq<Record>
  {
    if setup.gameId != -1 && setup.playerId != -1 then records + [EndGameRecord(setup.gameId, setup.playerId)]
    else records
  }

  /** The king of `loser` was captured: the game is recorded as over and the defeat is shown. */
  function EndGame(g: Game, setup: Setup, loser: Color): Game
  {
    g.(records := EndGameLog(g.records, setup), notices := g.notices + [DefeatNotice(loser)])
  }

  /**
   * CapturePiece up to the final DeselectPiece: the selected piece takes
   * `enemy`'s place and the move is logged; a captured king ends the game
   * without passing the turn, a pawn reaching the far rank starts the
   * promotion, anything else passes the turn.
   */
  function CaptureStep(g: Game, setup: Setup, enemy: nat): Game
    requires Addressable(g) && g.core.selected.Some? && enemy in g.core.capturable
  {
    var sel := g.core.selected.value;
    var target := g.core.capturable[enemy];
    var moved := RecordMove(WithBoard(g, CaptureBoard(g.core, enemy)), setup, g.core.scene[sel].sq, target);
    CaptureOutcome(moved, setup, g.core.scene[enemy], sel, g.core.scene[sel], target)
  }

  /** What follows the capture of `captured` by `mover`, the piece `sel`, on `target`. */
  function CaptureOutcome(moved: Game, setup: Setup, captured: Piece, sel: nat, mover: Piece, target: Square): Game
  {
    if captured.kind == King then EndGame(moved, setup, captured.color)
    else if ShouldPromote(mover, target) then StartPromotion(moved, setup, sel, target)
    else Flip(moved)
  }

  /** CapturePiece: nothing unless `enemy` is in `capturablePieces`; the selection is dropped after the capture. */
  function CapturePiece(g: Game, setup: Setup, enemy: nat): Game
    requires Addressable(g) && g.core.selected.Some?
  {
    if enemy !in g.core.capturable then g
    else
      var next := CaptureStep(g, setup, enemy);
      next.(core := Deselect(next.core))
  }

  /**
   * The body of TryMovePiece's loop for the highlight on `sq`: the selected
   * piece moves there and the move is logged; then the promotion starts or
   * the turn passes.
   */
  function MoveStep(g: Game, setup: Setup, sq: Square): Game
    requires Addressable(g) && g.core.selected.Some?
  {
    var sel := g.core.selected.value;
    var moved := RecordMove(WithBoard(g, MoveBoard(g.core, sq)), setup, g.core.scene[sel].sq, sq);
    if ShouldPromote(g.core.scene[sel], sq) then StartPromotion(moved, setup, sel, sq) else Flip(moved)
  }

  /** TryMovePiece: a click on a highlighted square makes the move; the selection is dropped either way. */
  function TryMovePiece(g: Game, setup: Setup, sq: Square): Game
    requires Addressable(g)
  {
    if g.core.selected.None? then g
    else
      var next := if Matches(g.core.highlights, sq) then MoveStep(g, setup, sq) else g;
      next.(core := Deselect(next.core))
  }

  /** `char.ToLower` on the ASCII letters. */
  function LowerChar(ch: char): char
  {
    if 'A' <= ch <= 'Z' then (ch as int + 32) as char else ch
  }

  /** `string.ToLower`, letter by letter. */
  function Lower(s: string): string
  {
    seq(|s|, i requires 0 <= i < |s| => LowerChar(s[i]))
  }

  /** The piece a name given to PromoteTo stands for, in any letter case. */
  function PromotionKind(pieceType: string): (r: Option<Kind>)
    ensures r.Some? ==> |pieceType| >= 4 && r.value != King && r.value != Pawn
  {
    var name := Lower(pieceType);
    if name == "queen" then Some(Queen)
    else if name == "rook" then Some(Rook)
    else if name == "bishop" then Some(Bishop)
    else if name == "knight" then Some(Knight)
    else None
  }

  /** The log after a promotion; unlike RecordMove it is written during a replay too. */
  function PromotionLog(records: seq<Record>, setup: Setup, sq: Square, letter: char): seq<Record>
  {
    if setup.gameId != -1 then records + [PromotionRecord(setup.gameId, sq, letter)] else records
  }

  /**
   * PromoteTo: a recognised piece name puts a new active piece of the pawn's
   * colour on the promotion square, logs the promotion with the name's first
   * character and takes the pawn out; the promotion ends and the turn passes
   * in every case, even for a name it does not recognise.
   */
  function PromoteTo(g: Game, setup: Setup, pieceType: string): Game
    requires Addressable(g)
  {
    if !g.promoting || g.pawnToPromote.None? then g
    else Flip(Promoted(g, setup, pieceType).(promoting := false, pawnToPromote := None))
  }

  /** PromoteTo's replacement of the pawn, when the name is recognised. */
  function Promoted(g: Game, setup: Setup, pieceType: string): Game
    requires Addressable(g) && g.pawnToPromote.Some?
  {
    var pawn := g.pawnToPromote.value;
    var s := g.core.scene;
    match PromotionKind(pieceType)
    case None => g
    case Some(k) =>
      g.(core := g.core.(scene := Deactivate(s + [Piece(k, s[pawn].color, g.promotionSquare, true)], pawn)),
         records := PromotionLog(g.records, setup, g.promotionSquare, pieceType[0]))
  }

  /** The first check-message block of Update. */
  function CheckFirst(g: Game, kingInCheck: bool): Game
  {
    if kingInCheck && !g.checkDisplayed then g.(checkDisplayed := true, notices := g.notices + [CheckNotice(g.core.turn)])
    else if !kingInCheck then g.(checkDisplayed := false)
    else g
  }

  /** The second check-message block of Update. */
  function CheckSecond(g: Game, kingInCheck: bool): Game
  {
    if kingInCheck && !g.checkDisplayed then g.(checkDisplayed := true, notices := g.notices + [CheckNotice(g.core.turn)])
    else if !kingInCheck && g.checkDisplayed then g.(checkDisplayed := false)
    else g
  }

  /** What a click does once the check message is settled. */
  function HandleClick(g: Game, setup: Setup, click: Click): Game
    requires Addressable(g)
  {
    match click
    case NoClick => g
    case ClickPiece(id) =>
      if id >= |g.core.scene| || !g.core.scene[id].active then g
      else if g.core.scene[id].color != g.core.turn then
        if g.core.selected.Some? && id in g.core.capturable then CapturePiece(g, setup, id) else g
      else if g.core.selected == Some(id) then g.(core := Deselect(g.core))
      else g.(core := Select(g.core, id, true))
    case ClickSquare(sq) =>
      if g.core.selected.Some? then TryMovePiece(g, setup, sq) else g
  }

  /** Update: one frame; nothing happens while a promotion waits for its piece. */
  function Update(g: Game, setup: Setup, click: Click): Game
    requires Addressable(g)
  {
    var kingInCheck := InCheck(g.core.scene, g.core.turn);
    if g.promoting then g
    else HandleClick(CheckSecond(CheckFirst(g, kingInCheck), kingInCheck), setup, click)
  }

  // ---------------------------------------------------------------------------
  // The invariant

  /** A logged move names squares of the board, a logged promotion a piece letter that is not a digit. */
  predicate RecordValid(r: Record)
  {
    && (r.MoveRecord? ==> InBounds(r.from) && InBounds(r.to))
    && (r.PromotionRecord? ==> InBounds(r.sq) && !IsDigit(r.letter))
  }

  /**
   * The controller's state is consistent: the shared invariant with the
   * check-aware filter, a pending promotion names an active pawn of the side to
   * move standing on the promotion square and leaves nothing selected, and
   * every logged record is well formed.
   */
  predicate GameValid(g: Game)
  {
    && Addressable(g)
    && CoreValid(g.core, true)
    && PromotionValid(g)
    && (g.promoting ==> g.core.selected.None?)
    && RecordsValid(g.records)
  }

  /** A pending promotion names an active pawn of the side to move on the promotion square. */
  predicate PromotionValid(g: Game)
  {
    && (g.promoting <==> g.pawnToPromote.Some?)
    && (g.promoting ==>
          && g.pawnToPromote.value < |g.core.scene|
          && StandsOn(g.core.scene, g.pawnToPromote.value, g.promotionSquare)
          && g.core.scene[g.pawnToPromote.value].kind == Pawn
          && g.core.scene[g.pawnToPromote.value].color == g.core.turn)
  }

  predicate RecordsValid(rs: seq<Record>)
  {
    forall i :: 0 <= i < |rs| ==> RecordValid(rs[i])
  }

  /** The state a new game starts in: the pieces of InitialPosition, White to move, nothing selected. */
  function InitialGame(): Game
  {
    var ps := InitialPosition();
    var scene := seq(|ps|, i requires 0 <= i < |ps| => Piece(ps[i].kind, ps[i].color, ps[i].sq, true));
    Game(Core(scene, None, [], map[], map[], White), false, false, None, Square(0, 0), [], [])
  }

  // ---------------------------------------------------------------------------
  // Lemmas

  /** Under the shared invariant, the selection and every key of the capture map are pieces of the scene. */
  lemma CoreAddressable(c: Core, aware: bool)
    requires CoreValid(c, aware)
    ensures Addressed(c) && forall p :: p in c.capturable ==> p < |c.scene|
  {
    if c.selected.Some? {
      SelectionSound(c, aware);
      forall p | p in c.capturable
        ensures p < |c.scene|
      {
        CaptureMapEnemy(c.scene, c.turn, c.highlights, p);
      }
    }
  }

  /** A new game starts in a valid state, with a king of each colour on its home square. */
  lemma InitialGameValid()
    ensures GameValid(InitialGame())
    ensures var s := InitialGame().core.scene;
      && |s| == 32
      && s[24] == Piece(King, White, Square(4, 0), true) && s[25] == Piece(King, Black, Square(4, 7), true)
  {
    InitialPositionFacts();
    var ps := InitialPosition();
    var s := InitialGame().core.scene;
    assert forall i :: 0 <= i < 32 ==> s[i].sq == ps[i].sq && s[i].kind == ps[i].kind;
  }

  /** The second check-message block never changes anything the first one left. */
  lemma SecondCheckBlockIdle(g: Game, kingInCheck: bool)
    ensures CheckSecond(CheckFirst(g, kingInCheck), kingInCheck) == CheckFirst(g, kingInCheck)
  {
  }

  /** A capture shows at most the defeat of the captured king's side, and never touches the check flag. */
  lemma CaptureNotices(g: Game, setup: Setup, enemy: nat)
    requires Addressable(g) && g.core.selected.Some? && enemy in g.core.capturable
    ensures var r := CapturePiece(g, setup, enemy);
      && r.checkDisplayed == g.checkDisplayed
      && r.notices == g.notices + (if g.core.scene[enemy].kind == King then [DefeatNotice(g.core.scene[enemy].color)] else [])
  {
  }

  /** Clicks only add defeat notices to the message panel, and never touch the check flag. */
  lemma ClickKeepsNotices(g: Game, setup: Setup, click: Click)
    requires Addressable(g)
    ensures var r := HandleClick(g, setup, click);
      && r.checkDisplayed == g.checkDisplayed
      && |g.notices| <= |r.notices| && r.notices[..|g.notices|] == g.notices
      && forall j :: |g.notices| <= j < |r.notices| ==> r.notices[j].DefeatNotice?
  {
    var r := HandleClick(g, setup, click);
    var extra: seq<Notice> := [];
    match click {
      case NoClick =>
      case ClickSquare(sq) =>
        if g.core.selected.Some? {
          TryMoveNotices(g, setup, sq);
        }
      case ClickPiece(id) =>
        if id < |g.core.scene| && g.core.scene[id].active && g.core.scene[id].color != g.core.turn
           && g.core.selected.Some? && id in g.core.capturable
        {
          CaptureNotices(g, setup, id);
          extra := if g.core.scene[id].kind == King then [DefeatNotice(g.core.scene[id].color)] else [];
        }
    }
    AddedDefeats(g.notices, extra);
  }

  /** A click on a square shows nothing. */
  lemma TryMoveNotices(g: Game, setup: Setup, sq: Square)
    requires Addressable(g)
    ensures var r := TryMovePiece(g, setup, sq);
      r.notices == g.notices && r.checkDisplayed == g.checkDisplayed
  {
  }

  lemma AddedDefeats(ns: seq<Notice>, extra: seq<Notice>)
    requires forall j :: 0 <= j < |extra| ==> extra[j].DefeatNotice?
    ensures |ns| <= |ns + extra| && (ns + extra)[..|ns|] == ns
    ensures forall j :: |ns| <= j < |ns + extra| ==> (ns + extra)[j].DefeatNotice?
  {
  }

  /**
   * The check message: a frame that is not waiting for a promotion leaves the
   * flag equal to whether the side to move is in check, and shows the check
   * notice exactly when the check is new: every notice the click adds after
   * it announces a defeat.
   */
  lemma CheckMessage(g: Game, setup: Setup, click: Click)
    requires Addressable(g) && !g.promoting
    ensures var r := Update(g, setup, click);
      var check := InCheck(g.core.scene, g.core.turn);
      var shown := g.notices + (if check && !g.checkDisplayed then [CheckNotice(g.core.turn)] else []);
      && r.checkDisplayed == check
      && |shown| <= |r.notices| && r.notices[..|shown|] == shown
      && forall j :: |shown| <= j < |r.notices| ==> r.notices[j].DefeatNotice?
  {
    var check := InCheck(g.core.scene, g.core.turn);
    var h := CheckFirst(g, check);
    SecondCheckBlockIdle(g, check);
    ClickKeepsNotices(h, setup, click);
  }

  /** While a promotion waits for its piece, frames change nothing. */
  lemma PromotionBlocksUpdate(g: Game, setup: Setup, click: Click)
    requires Addressable(g) && g.promoting
    ensures Update(g, setup, click) == g
  {
  }

  /**
   * Capturing the enemy king ends the game: the king is out, the move and the
   * end of the game are logged, the defeat of the king's side is shown, and
   * the turn does not pass.
   */
  lemma KingCaptureEndsGame(g: Game, setup: Setup, enemy: nat)
    requires GameValid(g) && g.core.selected.Some? && enemy in g.core.capturable
    requires enemy < |g.core.scene| && g.core.scene[enemy].kind == King
    ensures var r := CapturePiece(g, setup, enemy);
      var from := g.core.scene[g.core.selected.value].sq;
      && g.core.scene[enemy].color != g.core.turn
      && StandsOn(r.core.scene, g.core.selected.value, g.core.capturable[enemy])
      && Moved(r.core.hasMoved, g.core.selected.value)
      && r.core.turn == g.core.turn && !r.core.scene[enemy].active
      && r.notices == g.notices + [DefeatNotice(g.core.scene[enemy].color)]
      && r.records == EndGameLog(MoveLog(g.records, setup, from, g.core.capturable[enemy]), setup)
      && r.core.selected.None?
  {
    CaptureBoardValid(g.core, enemy, true);
  }

  /**
   * Any other capture puts the selected piece on the enemy's square, takes the
   * enemy out and logs the move; the turn passes unless a pawn reached the far
   * rank.
   */
  lemma CapturePassesTurn(g: Game, setup: Setup, enemy: nat)
    requires GameValid(g) && g.core.selected.Some? && enemy in g.core.capturable
    requires enemy < |g.core.scene| && g.core.scene[enemy].kind != King
    ensures var r := CapturePiece(g, setup, enemy);
      var sel := g.core.selected.value;
      var target := g.core.capturable[enemy];
      && StandsOn(r.core.scene, sel, target) && !r.core.scene[enemy].active
      && Moved(r.core.hasMoved, sel)
      && r.notices == g.notices
      && r.records == MoveLog(g.records, setup, g.core.scene[sel].sq, target)
      && (if ShouldPromote(g.core.scene[sel], target) && setup.promotionUI
          then r.promoting && r.pawnToPromote == Some(sel) && r.core.turn == g.core.turn
          else !r.promoting && r.core.turn == Opponent(g.core.turn))
  {
    CaptureBoardValid(g.core, enemy, true);
  }

  /**
   * A click on a square without a highlight only drops the selection; a click
   * on a highlighted square moves the selected piece there, logs the move and
   * passes the turn unless a pawn reached the far rank.
   */
  lemma TryMoveTurn(g: Game, setup: Setup, sq: Square)
    requires GameValid(g) && g.core.selected.Some?
    ensures var r := TryMovePiece(g, setup, sq);
      var sel := g.core.selected.value;
      && r.core.selected.None?
      && (!Matches(g.core.highlights, sq) ==> r == g.(core := Deselect(g.core)))
      && (Matches(g.core.highlights, sq) ==>
            && PieceAt(r.core.scene, sq) == Some(sel)
            && Moved(r.core.hasMoved, sel)
            && r.records == MoveLog(g.records, setup, g.core.scene[sel].sq, sq)
            && (if ShouldPromote(g.core.scene[sel], sq) && setup.promotionUI
                then r.promoting && r.core.turn == g.core.turn
                else !r.promoting && r.core.turn == Opponent(g.core.turn)))
  {
    if Matches(g.core.highlights, sq) {
      MoveBoardValid(g.core, sq, true);
    }
  }

  /**
   * A move onto a highlighted square holding the enemy king takes the king out
   * like any other piece: the game does not end, nothing is shown, and the
   * turn passes.
   */
  lemma KingTakenByMoveGoesUnnoticed(g: Game, setup: Setup, sq: Square, e: nat)
    requires GameValid(g) && g.core.selected.Some? && Matches(g.core.highlights, sq)
    requires StandsOn(g.core.scene, e, sq) && g.core.scene[e].kind == King
    requires !ShouldPromote(g.core.scene[g.core.selected.value], sq)
    ensures var r := TryMovePiece(g, setup, sq);
      && g.core.scene[e].color != g.core.turn
      && !r.core.scene[e].active && r.notices == g.notices
      && r.records == MoveLog(g.records, setup, g.core.scene[g.core.selected.value].sq, sq)
      && r.core.turn == Opponent(g.core.turn)
  {
    var h := MatchedSound(g.core, sq, true);
    PieceAtUnique(g.core.scene, sq, e);
    MoveBoardValid(g.core, sq, true);
    var (s, hm) := MoveBoard(g.core, sq);
    PieceAtUnique(s, sq, e);
  }

  /** The names PromoteTo recognises start with a letter, never a digit. */
  lemma PromotionLetter(pieceType: string)
    requires PromotionKind(pieceType).Some?
    ensures !IsDigit(pieceType[0])
  {
    assert Lower(pieceType)[0] == LowerChar(pieceType[0]);
  }

  /** Putting the promoted piece on the pawn's square and taking the pawn out keeps the scene valid. */
  lemma PlacePromoted(s: Scene, hasMoved: map<nat, bool>, pawn: nat, sq: Square, k: Kind, c: Color)
    requires SceneValid(s, hasMoved) && StandsOn(s, pawn, sq) && k != King
    ensures var r := Deactivate(s + [Piece(k, c, sq, true)], pawn);
      && SceneValid(r, hasMoved) && PieceAt(r, sq) == Some(|s|)
  {
    var r := Deactivate(s + [Piece(k, c, sq, true)], pawn);
    forall i, j | 0 <= i < |r| && 0 <= j < |r| && i != j && r[i].active && r[j].active
      ensures r[i].sq != r[j].sq
    {
      if i == |s| {
        assert j != pawn && r[j] == s[j];
      } else if j == |s| {
        assert i != pawn && r[i] == s[i];
      } else {
        assert r[i] == s[i] && r[j] == s[j];
      }
    }
    assert KingsHome(r, hasMoved) by {
      forall j | 0 <= j < |r| && r[j].active && r[j].kind == King && !Moved(hasMoved, j)
        ensures r[j].sq.x == 4
      {
        assert j < |s| && r[j] == s[j];
      }
    }
    PieceAtUnique(r, sq, |s|);
  }

  /**
   * PromoteTo during a promotion: a recognised name replaces the pawn by an
   * active piece of that kind and the pawn's colour on the promotion square
   * and logs the name's first character; an unknown name leaves the pawn on
   * the far rank.  The promotion ends and the turn passes either way.
   */
  lemma PromoteToEffect(g: Game, setup: Setup, pieceType: string)
    requires GameValid(g) && g.promoting
    ensures var r := PromoteTo(g, setup, pieceType);
      var s := g.core.scene;
      var pawn := g.pawnToPromote.value;
      && !r.promoting && r.pawnToPromote.None? && r.core.turn == Opponent(g.core.turn)
      && match PromotionKind(pieceType)
         case None => r.core.scene == s && r.records == g.records
         case Some(k) =>
           && |r.core.scene| == |s| + 1 && !r.core.scene[pawn].active
           && PieceAt(r.core.scene, g.promotionSquare) == Some(|s|)
           && r.core.scene[|s|] == Piece(k, s[pawn].color, g.promotionSquare, true)
           && r.records == PromotionLog(g.records, setup, g.promotionSquare, pieceType[0])
  {
    match PromotionKind(pieceType) {
      case None =>
      case Some(k) =>
        PlacePromoted(g.core.scene, g.core.hasMoved, g.pawnToPromote.value, g.promotionSquare, k, g.core.scene[g.pawnToPromote.value].color);
    }
  }

  /** PromoteTo keeps the invariant. */
  lemma PromoteToValid(g: Game, setup: Setup, pieceType: string)
    requires GameValid(g)
    ensures GameValid(PromoteTo(g, setup, pieceType))
  {
    if g.promoting {
      PromotedValid(g, setup, pieceType);
      var p := Promoted(g, setup, pieceType);
      assert CoreValid(p.core.(turn := Opponent(p.core.turn)), true);
    }
  }

  /** The replacement of the pawn keeps the scene and the log valid and leaves nothing selected. */
  lemma PromotedValid(g: Game, setup: Setup, pieceType: string)
    requires GameValid(g) && g.promoting
    ensures var p := Promoted(g, setup, pieceType);
      && SceneValid(p.core.scene, p.core.hasMoved) && RecordsValid(p.records)
      && p.core.selected.None? && p.core.highlights == [] && p.core.capturable == map[]
  {
    match PromotionKind(pieceType) {
      case None =>
      case Some(k) =>
        PlacePromoted(g.core.scene, g.core.hasMoved, g.pawnToPromote.value, g.promotionSquare, k, g.core.scene[g.pawnToPromote.value].color);
        PromotionLetter(pieceType);
    }
  }

  /** The logged move of a valid state names squares of the board. */
  lemma MoveLogValid(records: seq<Record>, setup: Setup, from: Square, to: Square)
    requires RecordsValid(records) && InBounds(from) && InBounds(to)
    ensures RecordsValid(MoveLog(records, setup, from, to))
  {
  }

  /** Dropping the selection at the end of an action restores the invariant. */
  lemma FinishValid(n: Game)
    requires SceneValid(n.core.scene, n.core.hasMoved) && PromotionValid(n) && RecordsValid(n.records)
    ensures GameValid(n.(core := Deselect(n.core)))
  {
    DeselectValid(n.core, true, n.core.turn);
  }

  /** A capture keeps the invariant. */
  lemma CaptureValid(g: Game, setup: Setup, enemy: nat)
    requires GameValid(g) && g.core.selected.Some? && enemy in g.core.capturable
    ensures GameValid(CapturePiece(g, setup, enemy))
  {
    var sel := g.core.selected.value;
    var target := g.core.capturable[enemy];
    CaptureBoardValid(g.core, enemy, true);
    var (s, hm) := CaptureBoard(g.core, enemy);
    assert s[sel].kind == g.core.scene[sel].kind && s[sel].color == g.core.scene[sel].color && |s| == |g.core.scene|;
    MoveLogValid(g.records, setup, g.core.scene[sel].sq, target);
    var moved := RecordMove(WithBoard(g, (s, hm)), setup, g.core.scene[sel].sq, target);
    assert PromotionValid(moved) && RecordsValid(moved.records);
    if g.core.scene[enemy].kind == King {
      FinishValid(EndGame(moved, setup, g.core.scene[enemy].color));
    } else if ShouldPromote(g.core.scene[sel], target) {
      FinishValid(StartPromotion(moved, setup, sel, target));
    } else {
      FinishValid(Flip(moved));
    }
  }

  /** A click on a square keeps the invariant. */
  lemma TryMoveValid(g: Game, setup: Setup, sq: Square)
    requires GameValid(g)
    ensures GameValid(TryMovePiece(g, setup, sq))
  {
    if g.core.selected.Some? {
      DeselectValid(g.core, true, g.core.turn);
      if Matches(g.core.highlights, sq) {
        var sel := g.core.selected.value;
        var h := MatchedSound(g.core, sq, true);
        MoveBoardValid(g.core, sq, true);
        var (s, hm) := MoveBoard(g.core, sq);
        MoveBoardKeepsPiece(g.core, sq, true);
        MoveLogValid(g.records, setup, g.core.scene[sel].sq, sq);
        var moved := RecordMove(WithBoard(g, (s, hm)), setup, g.core.scene[sel].sq, sq);
        assert PromotionValid(moved) && RecordsValid(moved.records);
        if ShouldPromote(g.core.scene[sel], sq) {
          FinishValid(StartPromotion(moved, setup, sel, sq));
        } else {
          FinishValid(Flip(moved));
        }
      }
    }
  }

  /** Selecting a piece of the side to move keeps the invariant. */
  lemma SelectGameValid(g: Game, id: nat)
    requires GameValid(g) && !g.promoting && id < |g.core.scene| && g.core.scene[id].active && g.core.scene[id].color == g.core.turn
    ensures GameValid(g.(core := Select(g.core, id, true)))
  {
    SelectValid(g.core, id, true);
    CoreAddressable(Select(g.core, id, true), true);
  }

  /** A click outside a promotion keeps the invariant. */
  lemma ClickValid(g: Game, setup: Setup, click: Click)
    requires GameValid(g) && !g.promoting
    ensures GameValid(HandleClick(g, setup, click))
  {
    match click {
      case NoClick =>
      case ClickSquare(sq) =>
        TryMoveValid(g, setup, sq);
      case ClickPiece(id) =>
        if id < |g.core.scene| && g.core.scene[id].active {
          if g.core.scene[id].color != g.core.turn {
            if g.core.selected.Some? && id in g.core.capturable {
              CaptureValid(g, setup, id);
            }
          } else if g.core.selected == Some(id) {
            DeselectValid(g.core, true, g.core.turn);
          } else {
            SelectGameValid(g, id);
          }
        }
    }
  }

  /** A frame keeps the invariant. */
  lemma UpdateValid(g: Game, setup: Setup, click: Click)
    requires GameValid(g)
    ensures GameValid(Update(g, setup, click))
  {
    if !g.promoting {
      var check := InCheck(g.core.scene, g.core.turn);
      var h := CheckSecond(CheckFirst(g, check), check);
      assert h.core == g.core && h.records == g.records && h.promoting == g.promoting;
      ClickValid(h, setup, click);
    }
  }

  /**
   * Every logged move reads back, through ChessBoard's parser, as the move
   * that was made; a logged promotion does not parse as a move.
   */
  lemma RecordsReplay(g: Game, i: nat)
    requires GameValid(g) && i < |g.records|
    ensures var r := g.records[i];
      && (r.MoveRecord? ==> ParseMove(MoveNotation(r.from, r.to)) == Some(Move(r.from, r.to)))
      && (r.PromotionRecord? ==> ParseMove(PromotionNotation(r.sq, [r.letter])) == None)
  {
    var r := g.records[i];
    assert RecordValid(r);
    if r.MoveRecord? {
      ParseMoveNotation(r.from, r.to);
    } else if r.PromotionRecord? {
      PromotionUnparsable(r.sq, [r.letter]);
    }
  }
}
