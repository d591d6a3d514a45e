/**
 * What the two interaction controllers (finall.cs and ChessPieceMover.cs)
 * share: the state they keep between frames, selecting and deselecting a
 * piece, the board changes of a capture and of a move onto a highlighted
 * square (with the rook's part of castling), and the invariant those keep.
 */
module Controls {
  import opened Chess
  import opened AttackMap
  import opened MoveGen
  import opened MoveGenFacts

  /**
   * A mouse click of one frame, as the physics raycast resolves it: nothing,
   * a piece (only active pieces have colliders) or any other board square.
   */
  datatype Click = NoClick | ClickPiece(id: nat) | ClickSquare(sq: Square)

  /**
   * The scene and the fields both controllers keep: the selected piece, its
   * highlight markers in creation order, `capturablePieces`, `hasMoved` and
   * whose turn it is.
   */
  datatype Core = Core(
    scene: Scene,
    selected: Option<nat>,
    highlights: seq<Highlight>,
    capturable: map<nat, Square>,
    hasMoved: map<nat, bool>,
    turn: Color)

  /** The side whose turn the flag `isWhiteTurn` names. */
  function TurnOf(isWhiteTurn: bool): Color
  {
    if isWhiteTurn then White else Black
  }

  /** The selection refers to a piece of the scene. */
  predicate Addressed(c: Core)
  {
    c.selected.Some? ==> c.selected.value < |c.scene|
  }

  /** The `hasMoved` entry of piece `k` is set. */
  predicate Moved(hasMoved: map<nat, bool>, k: nat)
  {
    k in hasMoved && hasMoved[k]
  }

  /** DeselectPiece: no selection, no highlights, an empty capture map. */
  function Deselect(c: Core): (r: Core)
    ensures r.scene == c.scene && r.hasMoved == c.hasMoved && r.turn == c.turn
    ensures r.selected.None? && r.highlights == [] && r.capturable == map[]
  {
    c.(selected := None, highlights := [], capturable := map[])
  }

  /**
   * SelectPiece: piece `k` becomes the selection, gets a `hasMoved` entry
   * (false) unless it has one, and its highlights and capture map are shown.
   */
  function Select(c: Core, k: nat, aware: bool): Core
    requires k < |c.scene|
  {
    var hm := if k in c.hasMoved then c.hasMoved else c.hasMoved[k := false];
    var hs := Highlights(c.scene, k, hm, aware);
    c.(selected := Some(k), hasMoved := hm, highlights := hs, capturable := CaptureMap(c.scene, hs))
  }

  /** Select gives the selection, its `hasMoved` entry, and what ShowValidMoves computes for them. */
  lemma SelectIs(c: Core, k: nat, aware: bool, hm: map<nat, bool>, hs: seq<Highlight>, caps: map<nat, Square>)
    requires k < |c.scene|
    requires hm == (if k in c.hasMoved then c.hasMoved else c.hasMoved[k := false])
    requires hs == Highlights(c.scene, k, hm, aware) && caps == CaptureMap(c.scene, hs)
    ensures Select(c, k, aware) == c.(selected := Some(k), hasMoved := hm, highlights := hs, capturable := caps)
  {
  }

  /** Setting `transform.position`: piece `k` now stands on `sq`. */
  function MoveTo(s: Scene, k: nat, sq: Square): (r: Scene)
    requires k < |s|
    ensures |r| == |s| && r[k].sq == sq && r[k].active == s[k].active
    ensures r[k].kind == s[k].kind && r[k].color == s[k].color
    ensures forall j :: 0 <= j < |s| && j != k ==> r[j] == s[j]
  {
    s[k := s[k].(sq := sq)]
  }

  /** `SetActive(false)`: piece `k` leaves the game but keeps its id. */
  function Deactivate(s: Scene, k: nat): (r: Scene)
    requires k < |s|
    ensures |r| == |s| && !r[k].active && r[k].sq == s[k].sq
    ensures r[k].kind == s[k].kind && r[k].color == s[k].color
    ensures forall j :: 0 <= j < |s| && j != k ==> r[j] == s[j]
  {
    s[k := s[k].(active := false)]
  }

  /** `|a - b|`. */
  function Abs(a: int): nat
  {
    if a < 0 then -a else a
  }

  /**
   * HandleCastling: the piece found in the corner on the king's side of the
   * move, when it is a rook of either colour, jumps next to the king's target
   * square on the inside and is marked as moved.
   */
  function HandleCastling(s: Scene, hasMoved: map<nat, bool>, fromX: int, toX: int, y: int): (Scene, map<nat, bool>)
  {
    var isKingside := toX > fromX;
    var rookX := if isKingside then 7 else 0;
    match PieceAt(s, Square(rookX, y))
    case None => (s, hasMoved)
    case Some(r) =>
      if s[r].kind == Rook then
        var newRookX := if isKingside then toX - 1 else toX + 1;
        (MoveTo(s, r, Square(newRookX, y)), hasMoved[r := true])
      else (s, hasMoved)
  }

  /** Some highlight marker stands on `sq`. */
  predicate Matches(hs: seq<Highlight>, sq: Square)
  {
    exists j :: 0 <= j < |hs| && hs[j].sq == sq
  }

  /** TryMovePiece's search of the highlight markers for the clicked square. */
  method FindMarker(hs: seq<Highlight>, sq: Square) returns (found: bool)
    ensures found == Matches(hs, sq)
  {
    found := false;
    for i := 0 to |hs|
      invariant !found
      invariant forall j :: 0 <= j < i ==> hs[j].sq != sq
    {
      if hs[i].sq == sq {
        found := true;
        break;
      }
    }
  }

  /**
   * What TryMovePiece does on finding the highlight on `sq`, before the piece
   * moves: a different piece found there is deactivated, and an unmoved king
   * moving two files brings the rook along.
   */
  function ClearForMove(c: Core, sq: Square): (Scene, map<nat, bool>)
    requires c.selected.Some? && c.selected.value < |c.scene|
  {
    var sel := c.selected.value;
    var from := c.scene[sel].sq;
    var s1 := match PieceAt(c.scene, sq)
      case Some(q) => if q != sel then Deactivate(c.scene, q) else c.scene
      case None => c.scene;
    var castles := c.scene[sel].kind == King && !Moved(c.hasMoved, sel) && Abs(sq.x - from.x) == 2;
    if castles then HandleCastling(s1, c.hasMoved, from.x, sq.x, sq.y) else (s1, c.hasMoved)
  }

  /**
   * The board part of a move of the selected piece onto the square `sq` of a
   * highlight: after ClearForMove the piece moves and is marked as moved.
   */
  function MoveBoard(c: Core, sq: Square): (Scene, map<nat, bool>)
    requires c.selected.Some? && c.selected.value < |c.scene|
  {
    var sel := c.selected.value;
    var (s2, hm2) := ClearForMove(c, sq);
    (MoveTo(s2, sel, sq), hm2[sel := true])
  }

  /** The board part of CapturePiece: the selected piece moves to the enemy's recorded square, the enemy is deactivated. */
  function CaptureBoard(c: Core, enemy: nat): (Scene, map<nat, bool>)
    requires c.selected.Some? && c.selected.value < |c.scene| && enemy < |c.scene| && enemy in c.capturable
  {
    var sel := c.selected.value;
    (Deactivate(MoveTo(c.scene, sel, c.capturable[enemy]), enemy), c.hasMoved[sel := true])
  }

  // ---------------------------------------------------------------------------
  // The invariant

  /** Every active king that is not marked as moved stands on its home file e. */
  predicate KingsHome(s: Scene, hasMoved: map<nat, bool>)
  {
    forall k :: 0 <= k < |s| && s[k].active && s[k].kind == King && !Moved(hasMoved, k) ==> s[k].sq.x == 4
  }

  /** The scene is a position of the game: on the board, no square shared, unmoved kings at home. */
  predicate SceneValid(s: Scene, hasMoved: map<nat, bool>)
  {
    AllInBounds(s) && Distinct(s) && KingsHome(s, hasMoved)
  }

  /**
   * The selection is an active piece of the side to move with a `hasMoved`
   * entry, and the markers and capture map are exactly what ShowValidMoves
   * shows for it; without a selection both are empty.
   */
  predicate SelectionValid(c: Core, aware: bool)
  {
    match c.selected
    case None => c.highlights == [] && c.capturable == map[]
    case Some(k) =>
      && k < |c.scene| && c.scene[k].active && c.scene[k].color == c.turn && k in c.hasMoved
      && c.highlights == Highlights(c.scene, k, c.hasMoved, aware)
      && c.capturable == CaptureMap(c.scene, c.highlights)
  }

  predicate CoreValid(c: Core, aware: bool)
  {
    SceneValid(c.scene, c.hasMoved) && SelectionValid(c, aware)
  }

  // ---------------------------------------------------------------------------
  // Scene lemmas

  /**
   * Moving piece `k` onto an on-board square no other active piece holds, and
   * marking it as moved, keeps the scene valid.
   */
  lemma MoveToValid(s: Scene, hasMoved: map<nat, bool>, k: nat, sq: Square)
    requires SceneValid(s, hasMoved) && k < |s| && InBounds(sq)
    requires forall j :: 0 <= j < |s| && j != k ==> !StandsOn(s, j, sq)
    ensures SceneValid(MoveTo(s, k, sq), hasMoved[k := true])
  {
    var r := MoveTo(s, k, sq);
    forall i, j | 0 <= i < |r| && 0 <= j < |r| && i != j && r[i].active && r[j].active
      ensures r[i].sq != r[j].sq
    {
      if i == k {
        assert !StandsOn(s, j, sq);
      } else if j == k {
        assert !StandsOn(s, i, sq);
      }
    }
  }

  /** Taking a piece out of the game keeps the scene valid. */
  lemma DeactivateValid(s: Scene, hasMoved: map<nat, bool>, q: nat)
    requires SceneValid(s, hasMoved) && q < |s|
    ensures SceneValid(Deactivate(s, q), hasMoved)
  {
  }

  /** Nothing active stands on a square PieceAt finds empty. */
  lemma FreeSquare(s: Scene, sq: Square, j: int)
    requires !Occupied(s, sq)
    ensures !StandsOn(s, j, sq)
  {
    PieceAtFirst(s, sq);
  }

  /** Under the invariant, the highlights of the selection are sound and never its own square. */
  lemma SelectionSound(c: Core, aware: bool)
    requires CoreValid(c, aware) && c.selected.Some?
    ensures AllSound(c.scene, c.turn, c.highlights)
    ensures forall j :: 0 <= j < |c.highlights| ==> c.highlights[j].sq != c.scene[c.selected.value].sq
  {
    var k := c.selected.value;
    HighlightsSound(c.scene, k, c.hasMoved, aware);
    forall j | 0 <= j < |c.highlights|
      ensures c.highlights[j].sq != c.scene[k].sq
    {
      HighlightsLeaveSquare(c.scene, k, c.hasMoved, aware, c.highlights[j]);
    }
  }

  /** Selecting an active piece of the side to move keeps the invariant. */
  lemma SelectValid(c: Core, k: nat, aware: bool)
    requires CoreValid(c, aware) && k < |c.scene| && c.scene[k].active && c.scene[k].color == c.turn
    ensures CoreValid(Select(c, k, aware), aware)
  {
    var r := Select(c, k, aware);
    assert forall j :: 0 <= j < |c.scene| && Moved(r.hasMoved, j) ==> Moved(c.hasMoved, j);
  }

  /** Deselecting keeps the invariant, whatever the turn. */
  lemma DeselectValid(c: Core, aware: bool, turn: Color)
    requires SceneValid(c.scene, c.hasMoved)
    ensures CoreValid(Deselect(c).(turn := turn), aware)
  {
  }

  /**
   * A capture of a piece in the capture map: the enemy stood on its recorded
   * square and was of the other side; afterwards the selected piece stands
   * there and the enemy is out of the game, and the scene stays valid.
   */
  lemma CaptureBoardValid(c: Core, enemy: nat, aware: bool)
    requires CoreValid(c, aware) && c.selected.Some? && enemy < |c.scene| && enemy in c.capturable
    ensures var sel := c.selected.value;
      && StandsOn(c.scene, enemy, c.capturable[enemy]) && c.scene[enemy].color != c.turn && enemy != sel
      && var (s, hm) := CaptureBoard(c, enemy);
      && SceneValid(s, hm)
      && StandsOn(s, sel, c.capturable[enemy]) && !s[enemy].active && Moved(hm, sel)
  {
    var sel := c.selected.value;
    SelectionSound(c, aware);
    CaptureMapEnemy(c.scene, c.turn, c.highlights, enemy);
    var target := c.capturable[enemy];
    var s1 := MoveTo(c.scene, sel, target);
    var (s, hm) := CaptureBoard(c, enemy);
    assert s == Deactivate(s1, enemy);
    forall i, j | 0 <= i < |s| && 0 <= j < |s| && i != j && s[i].active && s[j].active
      ensures s[i].sq != s[j].sq
    {
      if i != sel && j != sel {
        assert s[i] == c.scene[i] && s[j] == c.scene[j];
      } else if i == sel {
        assert s[j] == c.scene[j] && j != enemy;
      } else {
        assert s[i] == c.scene[i] && i != enemy;
      }
    }
    assert KingsHome(s, hm) by {
      forall k | 0 <= k < |s| && s[k].active && s[k].kind == King && !Moved(hm, k)
        ensures s[k].sq.x == 4
      {
        assert k != sel && s[k] == c.scene[k] && !Moved(c.hasMoved, k);
      }
    }
  }

  /** Every entry of the king's table moves at most one file. */
  lemma UnitDirection(k: int)
    requires 0 <= k < |QueenDirs|
    ensures -1 <= QueenDirs[k].dx <= 1
  {
    assert QueenDirs[k] in QueenDirs;
  }

  /** An adjacent-square move of the king changes its file by at most one. */
  lemma StepFiles(s: Scene, from: Square, c: Color, aware: bool, h: Highlight)
    requires h in Steps(s, from, c, aware, QueenDirs, 0)
    ensures Abs(h.sq.x - from.x) <= 1
  {
    StepsSpec(s, from, c, aware, QueenDirs, 0, h);
    var k :| 0 <= k < |QueenDirs| && h in Target(s, Shift(from, QueenDirs[k], 1), c);
    var o := QueenDirs[k];
    UnitDirection(k);
    TargetSpec(s, Shift(from, o, 1), c, h);
    assert h.sq.x == from.x + o.dx;
  }

  /** The highlight the selection offers on `sq`. */
  lemma MatchedSound(c: Core, sq: Square, aware: bool) returns (h: Highlight)
    requires CoreValid(c, aware) && c.selected.Some? && Matches(c.highlights, sq)
    ensures h in c.highlights && h.sq == sq && Sound(c.scene, c.turn, h) && sq != c.scene[c.selected.value].sq
  {
    SelectionSound(c, aware);
    var j :| 0 <= j < |c.highlights| && c.highlights[j].sq == sq;
    h := c.highlights[j];
  }

  /**
   * An unmoved king moving two files was offered kingside castling: it stands
   * on file e, moves to file g, an unmoved rook of its colour is in the corner
   * on file h and files f and g are free.  Queenside castling is offered three
   * files away, so it never moves the rook.
   */
  lemma TwoFilesIsKingside(c: Core, sq: Square, aware: bool)
    requires CoreValid(c, aware) && c.selected.Some? && Matches(c.highlights, sq)
    requires var k := c.selected.value; c.scene[k].kind == King && !Moved(c.hasMoved, k)
    requires Abs(sq.x - c.scene[c.selected.value].sq.x) == 2
    ensures var from := c.scene[c.selected.value].sq;
      && from.x == 4 && sq == Square(6, from.y)
      && RookReady(c.scene, c.hasMoved, Square(7, from.y), c.turn)
      && !Occupied(c.scene, Square(5, from.y)) && !Occupied(c.scene, Square(6, from.y))
  {
    var k := c.selected.value;
    var from := c.scene[k].sq;
    var h := MatchedSound(c, sq, aware);
    assert c.highlights == Steps(c.scene, from, c.turn, aware, QueenDirs, 0) + Castling(c.scene, c.hasMoved, from, c.turn);
    if h in Steps(c.scene, from, c.turn, aware, QueenDirs, 0) {
      StepFiles(c.scene, from, c.turn, aware, h);
    } else {
      CastlingFromE(c.scene, c.hasMoved, from, c.turn);
    }
  }

  /**
   * A move onto a highlighted square: afterwards the selected piece is the
   * piece on that square, marked as moved, whatever stood there is out of the
   * game, and the scene stays valid.
   */
  lemma MoveBoardValid(c: Core, sq: Square, aware: bool)
    requires CoreValid(c, aware) && c.selected.Some? && Matches(c.highlights, sq)
    ensures var (s, hm) := MoveBoard(c, sq);
      && SceneValid(s, hm) && |s| == |c.scene|
      && StandsOn(s, c.selected.value, sq) && PieceAt(s, sq) == Some(c.selected.value)
      && Moved(hm, c.selected.value)
  {
    var sel := c.selected.value;
    var s := c.scene;
    var from := s[sel].sq;
    var h := MatchedSound(c, sq, aware);
    var s1 := match PieceAt(s, sq)
      case Some(q) => if q != sel then Deactivate(s, q) else s
      case None => s;
    forall j | 0 <= j < |s1| && j != sel
      ensures !StandsOn(s1, j, sq)
    {
      if StandsOn(s, j, sq) {
        PieceAtUnique(s, sq, j);
      }
    }
    assert SceneValid(s1, c.hasMoved) by {
      if PieceAt(s, sq).Some? && PieceAt(s, sq).value != sel {
        DeactivateValid(s, c.hasMoved, PieceAt(s, sq).value);
      }
    }
    var castles := s[sel].kind == King && !Moved(c.hasMoved, sel) && Abs(sq.x - from.x) == 2;
    var (s2, hm2) := if castles then HandleCastling(s1, c.hasMoved, from.x, sq.x, sq.y) else (s1, c.hasMoved);
    if castles {
      TwoFilesIsKingside(c, sq, aware);
      CastleRook(s, c.hasMoved, sel, from.y, c.turn);
      assert s1 == s;
    }
    assert SceneValid(s2, hm2) && |s2| == |s| && forall j :: 0 <= j < |s2| && j != sel ==> !StandsOn(s2, j, sq);
    MoveToValid(s2, hm2, sel, sq);
    var r := MoveTo(s2, sel, sq);
    PieceAtUnique(r, sq, sel);
  }

  /**
   * The rook part of kingside castling for the king `k` on e1 or e8: the
   * unmoved rook in the corner jumps to file f, which was free, and is marked
   * as moved; file g stays free.
   */
  lemma CastleRook(s: Scene, hasMoved: map<nat, bool>, k: nat, y: int, c: Color)
    requires SceneValid(s, hasMoved) && k < |s| && StandsOn(s, k, Square(4, y)) && s[k].kind == King
    requires RookReady(s, hasMoved, Square(7, y), c) && !Occupied(s, Square(5, y)) && !Occupied(s, Square(6, y))
    ensures PieceAt(s, Square(7, y)).Some? && PieceAt(s, Square(7, y)).value != k
    ensures var r := PieceAt(s, Square(7, y)).value;
      HandleCastling(s, hasMoved, 4, 6, y) == (MoveTo(s, r, Square(5, y)), hasMoved[r := true])
    ensures var (s2, hm2) := HandleCastling(s, hasMoved, 4, 6, y);
      && SceneValid(s2, hm2) && StandsOn(s2, k, Square(4, y))
      && forall j :: 0 <= j < |s2| && j != k ==> !StandsOn(s2, j, Square(6, y))
  {
    var r := PieceAt(s, Square(7, y)).value;
    assert s[r].kind == Rook;
    var (s2, hm2) := HandleCastling(s, hasMoved, 4, 6, y);
    assert s2 == MoveTo(s, r, Square(5, y)) && hm2 == hasMoved[r := true];
    forall j | 0 <= j < |s| && j != r
      ensures !StandsOn(s, j, Square(5, y))
    {
      FreeSquare(s, Square(5, y), j);
    }
    MoveToValid(s, hasMoved, r, Square(5, y));
    forall j | 0 <= j < |s2|
      ensures !StandsOn(s2, j, Square(6, y))
    {
      FreeSquare(s, Square(6, y), j);
    }
  }

  /**
   * The queenside castling square of an unmoved king is three files away, so a
   * move there is not recognised as castling: only the king moves and the rook
   * stays in its corner.
   */
  lemma QueensideMovesKingOnly(c: Core, aware: bool)
    requires CoreValid(c, aware) && c.selected.Some?
    requires var k := c.selected.value; c.scene[k].kind == King && !Moved(c.hasMoved, k)
    requires var from := c.scene[c.selected.value].sq; Matches(c.highlights, Square(from.x - 3, from.y))
    ensures var k := c.selected.value; var from := c.scene[k].sq;
      && from.x == 4
      && MoveBoard(c, Square(1, from.y)) == (MoveTo(c.scene, k, Square(1, from.y)), c.hasMoved[k := true])
  {
    var k := c.selected.value;
    var from := c.scene[k].sq;
    var sq := Square(from.x - 3, from.y);
    var h := MatchedSound(c, sq, aware);
    assert c.highlights == Steps(c.scene, from, c.turn, aware, QueenDirs, 0) + Castling(c.scene, c.hasMoved, from, c.turn);
    if h in Steps(c.scene, from, c.turn, aware, QueenDirs, 0) {
      StepFiles(c.scene, from, c.turn, aware, h);
      assert false;
    }
    CastlingFromE(c.scene, c.hasMoved, from, c.turn);
    assert !h.capture;
  }

  /** A move onto a highlighted square keeps the moved piece's kind and colour and the number of pieces. */
  lemma MoveBoardKeepsPiece(c: Core, sq: Square, aware: bool)
    requires CoreValid(c, aware) && c.selected.Some? && Matches(c.highlights, sq)
    ensures var (s, hm) := MoveBoard(c, sq); var k := c.selected.value;
      && |s| == |c.scene| && s[k].kind == c.scene[k].kind && s[k].color == c.scene[k].color
  {
    var k := c.selected.value;
    var from := c.scene[k].sq;
    var castles := c.scene[k].kind == King && !Moved(c.hasMoved, k) && Abs(sq.x - from.x) == 2;
    if castles {
      TwoFilesIsKingside(c, sq, aware);
      CastleRook(c.scene, c.hasMoved, k, from.y, c.turn);
    }
  }
}
