/**
 * Move generation shared by both interaction controllers: the squares
 * `ShowValidMoves` highlights for the selected piece and the
 * `capturablePieces` map it fills (finall.cs and ChessPieceMover.cs).
 *
 * The two controllers differ in one place only: the check-aware controller
 * drops every adjacent king square that `IsUnderAttack` reports as attacked.
 * That difference is the `aware` flag.  Unlike the attack map, every square
 * offered here is bounds-checked, rays stop at the edge of the board, and a
 * friendly piece is never a destination.
 */
module MoveGen {
  import opened Chess
  import opened AttackMap

  /** A direction or a jump, as one of the source's `Vector2` offset tables. */
  datatype Offset = Offset(dx: int, dy: int)

  /** ShowRookMoves' directions: up, right, down, left. */
  const RookDirs: seq<Offset> := [Offset(0, 1), Offset(1, 0), Offset(0, -1), Offset(-1, 0)]

  /** ShowBishopMoves' directions: up-right, down-right, up-left, down-left. */
  const BishopDirs: seq<Offset> := [Offset(1, 1), Offset(1, -1), Offset(-1, 1), Offset(-1, -1)]

  /** The eight directions of ShowQueenMoves and ShowKingMoves, clockwise from up. */
  const QueenDirs: seq<Offset> :=
    [Offset(0, 1), Offset(1, 1), Offset(1, 0), Offset(1, -1), Offset(0, -1), Offset(-1, -1), Offset(-1, 0), Offset(-1, 1)]

  /** ShowKnightMoves' jumps. */
  const KnightJumps: seq<Offset> :=
    [Offset(1, 2), Offset(2, 1), Offset(-1, 2), Offset(-2, 1), Offset(1, -2), Offset(2, -1), Offset(-1, -2), Offset(-2, -1)]

  /** The square `k` steps from `from` along `o`. */
  function Shift(from: Square, o: Offset, k: int): Square
  {
    Square(from.x + o.dx * k, from.y + o.dy * k)
  }

  /** An on-board target square: free gives a normal highlight, an enemy a capture highlight, a friend nothing. */
  function Target(s: Scene, t: Square, c: Color): seq<Highlight>
  {
    match PieceAt(s, t)
    case None => [Highlight(t, false)]
    case Some(p) => if s[p].color != c then [Highlight(t, true)] else []
  }

  /**
   * One direction of a sliding piece from distance `d` on: the edge of the
   * board ends it, a free square is offered and the ray goes on, and the first
   * occupied square ends it, offered as a capture when it holds an enemy.
   */
  function Ray(s: Scene, from: Square, c: Color, o: Offset, d: nat): seq<Highlight>
    decreases 8 - d
  {
    if d > 7 then []
    else
      var t := Shift(from, o, d);
      if !InBounds(t) then []
      else if !Occupied(s, t) then [Highlight(t, false)] + Ray(s, from, c, o, d + 1)
      else Target(s, t, c)
  }

  /** The rays of the directions `dirs[i..]`, in table order. */
  function Rays(s: Scene, from: Square, c: Color, dirs: seq<Offset>, i: nat): seq<Highlight>
    requires i <= |dirs|
    decreases |dirs| - i
  {
    if i == |dirs| then [] else Ray(s, from, c, dirs[i], 1) + Rays(s, from, c, dirs, i + 1)
  }

  /** The jumps `jumps[i..]` that land on the board (the knight's, with `KnightJumps`). */
  function Jumps(s: Scene, from: Square, c: Color, jumps: seq<Offset>, i: nat): seq<Highlight>
    requires i <= |jumps|
    decreases |jumps| - i
  {
    if i == |jumps| then []
    else
      var t := Shift(from, jumps[i], 1);
      (if InBounds(t) then Target(s, t, c) else []) + Jumps(s, from, c, jumps, i + 1)
  }

  /** Whether the king's move filter accepts `t`: always, unless the controller is check-aware and `t` is attacked. */
  predicate KingSafe(s: Scene, t: Square, c: Color, aware: bool)
  {
    !aware || !UnderAttack(s, t, c)
  }

  /** The adjacent squares `dirs[i..]` that are on the board and pass the king's filter (the king's, with `QueenDirs`). */
  function Steps(s: Scene, from: Square, c: Color, aware: bool, dirs: seq<Offset>, i: nat): seq<Highlight>
    requires i <= |dirs|
    decreases |dirs| - i
  {
    if i == |dirs| then []
    else
      var t := Shift(from, dirs[i], 1);
      (if InBounds(t) && KingSafe(s, t, c, aware) then Target(s, t, c) else []) + Steps(s, from, c, aware, dirs, i + 1)
  }

  /** CheckCastlingSide's loop: the files from `x` towards the rook (file 7 for dir 1, file 0 for dir -1, both excluded) on rank `y` are free. */
  predicate PathClear(s: Scene, y: int, x: int, dir: int)
    requires dir == 1 || dir == -1
    decreases if dir > 0 then 7 - x else x
  {
    if (dir > 0 && x >= 7) || (dir < 0 && x <= 0) then true
    else !Occupied(s, Square(x, y)) && PathClear(s, y, x + dir, dir)
  }

  /** The rook square of a castling side. */
  function RookFile(dir: int): int
  {
    if dir == 1 then 7 else 0
  }

  /** How far the king is shown to travel: two files kingside, three queenside. */
  function CastleDistance(dir: int): int
  {
    if dir == 1 then 2 else 3
  }

  /** The castling side `dir` may be offered: an unmoved same-colour rook, tracked in `hasMoved`, stands in the corner and the path is free. */
  predicate CastleAllowed(s: Scene, hasMoved: map<nat, bool>, from: Square, c: Color, dir: int)
    requires dir == 1 || dir == -1
  {
    match PieceAt(s, Square(RookFile(dir), from.y))
    case None => false
    case Some(r) =>
      s[r].kind == Rook && s[r].color == c && r in hasMoved && !hasMoved[r] && PathClear(s, from.y, from.x + dir, dir)
  }

  /** CheckCastlingSide's highlight, not bounds-checked and not attack-filtered. */
  function CastleSide(s: Scene, hasMoved: map<nat, bool>, from: Square, c: Color, dir: int): seq<Highlight>
    requires dir == 1 || dir == -1
  {
    if CastleAllowed(s, hasMoved, from, c, dir)
    then [Highlight(Square(from.x + CastleDistance(dir) * dir, from.y), false)]
    else []
  }

  /** CheckCastling: kingside, then queenside. */
  function Castling(s: Scene, hasMoved: map<nat, bool>, from: Square, c: Color): seq<Highlight>
  {
    CastleSide(s, hasMoved, from, c, 1) + CastleSide(s, hasMoved, from, c, -1)
  }

  /** CheckAndHighlightCapture: an on-board square holding an enemy is offered as a capture. */
  function PawnCapture(s: Scene, t: Square, c: Color): seq<Highlight>
  {
    if !InBounds(t) then []
    else match PieceAt(s, t)
      case None => []
      case Some(e) => if s[e].color != c then [Highlight(t, true)] else []
  }

  /** The double step, considered only after the single step was offered. */
  function DoubleStep(s: Scene, from: Square, c: Color, moved: bool): seq<Highlight>
  {
    var dbl := Square(from.x, from.y + 2 * Forward(c));
    if !moved && InBounds(dbl) && !Occupied(s, dbl) then [Highlight(dbl, false)] else []
  }

  /** The single forward step onto a free square, followed by the double step. */
  function PawnPushes(s: Scene, from: Square, c: Color, moved: bool): seq<Highlight>
  {
    var fwd := Square(from.x, from.y + Forward(c));
    if InBounds(fwd) && !Occupied(s, fwd) then [Highlight(fwd, false)] + DoubleStep(s, from, c, moved) else []
  }

  /** ShowPawnMoves. */
  function PawnMoves(s: Scene, from: Square, c: Color, moved: bool): seq<Highlight>
  {
    var dir := Forward(c);
    PawnPushes(s, from, c, moved)
      + PawnCapture(s, Square(from.x - 1, from.y + dir), c)
      + PawnCapture(s, Square(from.x + 1, from.y + dir), c)
  }

  /** ShowKingMoves: the adjacent squares, then castling while the king is unmoved. */
  function KingMoves(s: Scene, from: Square, c: Color, hasMoved: map<nat, bool>, moved: bool, aware: bool): seq<Highlight>
  {
    Steps(s, from, c, aware, QueenDirs, 0) + (if !moved then Castling(s, hasMoved, from, c) else [])
  }

  /** ShowValidMoves: the highlights of piece `k`, whose `hasMoved` entry exists once it is selected. */
  function Highlights(s: Scene, k: nat, hasMoved: map<nat, bool>, aware: bool): seq<Highlight>
    requires k < |s| && k in hasMoved
  {
    var p := s[k];
    match p.kind
    case Pawn => PawnMoves(s, p.sq, p.color, hasMoved[k])
    case Knight => Jumps(s, p.sq, p.color, KnightJumps, 0)
    case Bishop => Rays(s, p.sq, p.color, BishopDirs, 0)
    case Rook => Rays(s, p.sq, p.color, RookDirs, 0)
    case Queen => Rays(s, p.sq, p.color, QueenDirs, 0)
    case King => KingMoves(s, p.sq, p.color, hasMoved, hasMoved[k], aware)
  }

  /**
   * `capturablePieces` after the highlights `hs` were created in order: every
   * capture highlight maps the piece standing on its square to that square.
   */
  function CaptureMap(s: Scene, hs: seq<Highlight>): map<nat, Square>
    decreases |hs|
  {
    if hs == [] then map[]
    else
      var m := CaptureMap(s, hs[..|hs| - 1]);
      var h := hs[|hs| - 1];
      match PieceAt(s, h.sq)
      case Some(p) => if h.capture then m[p := h.sq] else m
      case None => m
  }

  // ---------------------------------------------------------------------------
  // The imperative generators

  /** Concatenation is associative. */
  lemma Assoc(a: seq<Highlight>, b: seq<Highlight>, c: seq<Highlight>)
    ensures a + (b + c) == (a + b) + c
  {}

  lemma AppendNone(r: seq<Highlight>, rest: seq<Highlight>)
    requires rest == []
    ensures r + rest == r
  {}

  lemma NoneAppend(rest: seq<Highlight>)
    ensures [] + rest == rest
  {}

  /** What creating highlight `h` does to the capture map. */
  lemma CaptureMapSnoc(s: Scene, hs: seq<Highlight>, h: Highlight)
    ensures CaptureMap(s, hs + [h]) ==
      match PieceAt(s, h.sq)
      case Some(p) => if h.capture then CaptureMap(s, hs)[p := h.sq] else CaptureMap(s, hs)
      case None => CaptureMap(s, hs)
  {
    assert (hs + [h])[..|hs|] == hs;
  }

  /** CreateHighlight with the normal-move colour. */
  method AddNormal(s: Scene, hs: seq<Highlight>, caps: map<nat, Square>, t: Square)
    returns (hs': seq<Highlight>, caps': map<nat, Square>)
    requires caps == CaptureMap(s, hs)
    ensures hs' == hs + [Highlight(t, false)] && caps' == CaptureMap(s, hs')
  {
    CaptureMapSnoc(s, hs, Highlight(t, false));
    hs', caps' := hs + [Highlight(t, false)], caps;
  }

  /** CreateHighlight with the attack colour, then `capturablePieces[p] = t` for the piece `p` found on `t`. */
  method AddCapture(s: Scene, hs: seq<Highlight>, caps: map<nat, Square>, t: Square, p: nat)
    returns (hs': seq<Highlight>, caps': map<nat, Square>)
    requires caps == CaptureMap(s, hs) && PieceAt(s, t) == Some(p)
    ensures hs' == hs + [Highlight(t, true)] && caps' == CaptureMap(s, hs')
  {
    CaptureMapSnoc(s, hs, Highlight(t, true));
    hs', caps' := hs + [Highlight(t, true)], caps[p := t];
  }

  /** The shared body of every target check: what is offered on the on-board square `t`. */
  method AddTarget(s: Scene, hs: seq<Highlight>, caps: map<nat, Square>, t: Square, c: Color)
    returns (hs': seq<Highlight>, caps': map<nat, Square>)
    requires caps == CaptureMap(s, hs)
    ensures hs' == hs + Target(s, t, c) && caps' == CaptureMap(s, hs')
  {
    var pieceAtTarget := PieceAt(s, t);
    if pieceAtTarget.None? {
      hs', caps' := AddNormal(s, hs, caps, t);
    } else if s[pieceAtTarget.value].color != c {
      hs', caps' := AddCapture(s, hs, caps, t, pieceAtTarget.value);
    } else {
      hs', caps' := hs, caps;
      AppendNone(hs, Target(s, t, c));
    }
  }

  /** One iteration of a ray loop, behind the highlights `r` created so far. */
  lemma RayStep(s: Scene, from: Square, c: Color, o: Offset, d: nat, r: seq<Highlight>)
    requires 1 <= d <= 7
    ensures var t := Shift(from, o, d);
      && (!InBounds(t) ==> r + Ray(s, from, c, o, d) == r)
      && (InBounds(t) && !Occupied(s, t) ==> r + Ray(s, from, c, o, d) == (r + [Highlight(t, false)]) + Ray(s, from, c, o, d + 1))
      && (InBounds(t) && Occupied(s, t) ==> r + Ray(s, from, c, o, d) == r + Target(s, t, c))
  {
    var t := Shift(from, o, d);
    if InBounds(t) && !Occupied(s, t) {
      Assoc(r, [Highlight(t, false)], Ray(s, from, c, o, d + 1));
    } else if !InBounds(t) {
      AppendNone(r, Ray(s, from, c, o, d));
    }
  }

  /** The distance loop of ShowRookMoves, ShowBishopMoves and ShowQueenMoves for one direction. */
  method AddRay(s: Scene, from: Square, c: Color, o: Offset, hs: seq<Highlight>, caps: map<nat, Square>)
    returns (hs': seq<Highlight>, caps': map<nat, Square>)
    requires caps == CaptureMap(s, hs)
    ensures hs' == hs + Ray(s, from, c, o, 1) && caps' == CaptureMap(s, hs')
  {
    hs', caps' := hs, caps;
    for distance := 1 to 8
      invariant hs + Ray(s, from, c, o, 1) == hs' + Ray(s, from, c, o, distance)
      invariant caps' == CaptureMap(s, hs')
    {
      var targetPos := Square(from.x + o.dx * distance, from.y + o.dy * distance);
      RayStep(s, from, c, o, distance, hs');
      if !InBounds(targetPos) {
        return;
      }
      if !Occupied(s, targetPos) {
        hs', caps' := AddNormal(s, hs', caps', targetPos);
      } else {
        hs', caps' := AddTarget(s, hs', caps', targetPos, c);
        return;
      }
    }
    AppendNone(hs', Ray(s, from, c, o, 8));
  }

  lemma RaysStep(s: Scene, from: Square, c: Color, dirs: seq<Offset>, i: nat, r0: seq<Highlight>, r: seq<Highlight>)
    requires i < |dirs|
    requires r == r0 + Ray(s, from, c, dirs[i], 1)
    ensures r0 + Rays(s, from, c, dirs, i) == r + Rays(s, from, c, dirs, i + 1)
  {
    Assoc(r0, Ray(s, from, c, dirs[i], 1), Rays(s, from, c, dirs, i + 1));
  }

  /** The direction loop of the sliding pieces' Show*Moves. */
  method AddRays(s: Scene, from: Square, c: Color, dirs: seq<Offset>, hs: seq<Highlight>, caps: map<nat, Square>)
    returns (hs': seq<Highlight>, caps': map<nat, Square>)
    requires caps == CaptureMap(s, hs)
    ensures hs' == hs + Rays(s, from, c, dirs, 0) && caps' == CaptureMap(s, hs')
  {
    hs', caps' := hs, caps;
    for i := 0 to |dirs|
      invariant hs + Rays(s, from, c, dirs, 0) == hs' + Rays(s, from, c, dirs, i)
      invariant caps' == CaptureMap(s, hs')
    {
      ghost var r0 := hs';
      hs', caps' := AddRay(s, from, c, dirs[i], hs', caps');
      RaysStep(s, from, c, dirs, i, r0, hs');
    }
    AppendNone(hs', Rays(s, from, c, dirs, |dirs|));
  }

  lemma JumpsStep(s: Scene, from: Square, c: Color, jumps: seq<Offset>, i: nat, r0: seq<Highlight>, r: seq<Highlight>)
    requires i < |jumps|
    requires var t := Shift(from, jumps[i], 1); r == r0 + (if InBounds(t) then Target(s, t, c) else [])
    ensures r0 + Jumps(s, from, c, jumps, i) == r + Jumps(s, from, c, jumps, i + 1)
  {
    var t := Shift(from, jumps[i], 1);
    Assoc(r0, if InBounds(t) then Target(s, t, c) else [], Jumps(s, from, c, jumps, i + 1));
  }

  /** One jump of ShowKnightMoves. */
  method AddJump(s: Scene, t: Square, c: Color, hs: seq<Highlight>, caps: map<nat, Square>)
    returns (hs': seq<Highlight>, caps': map<nat, Square>)
    requires caps == CaptureMap(s, hs)
    ensures hs' == hs + (if InBounds(t) then Target(s, t, c) else []) && caps' == CaptureMap(s, hs')
  {
    if InBounds(t) {
      hs', caps' := AddTarget(s, hs, caps, t, c);
    } else {
      hs', caps' := hs, caps;
      AppendNone(hs, []);
    }
  }

  /** ShowKnightMoves' loop over the jump table `knightMoves`. */
  method ShowKnightMoves(s: Scene, from: Square, c: Color, knightMoves: seq<Offset>) returns (hs: seq<Highlight>, caps: map<nat, Square>)
    ensures hs == Jumps(s, from, c, knightMoves, 0) && caps == CaptureMap(s, hs)
  {
    hs, caps := [], map[];
    NoneAppend(Jumps(s, from, c, knightMoves, 0));
    for i := 0 to |knightMoves|
      invariant Jumps(s, from, c, knightMoves, 0) == hs + Jumps(s, from, c, knightMoves, i)
      invariant caps == CaptureMap(s, hs)
    {
      ghost var r0 := hs;
      hs, caps := AddJump(s, Square(from.x + knightMoves[i].dx, from.y + knightMoves[i].dy), c, hs, caps);
      JumpsStep(s, from, c, knightMoves, i, r0, hs);
    }
    AppendNone(hs, Jumps(s, from, c, knightMoves, |knightMoves|));
  }

  lemma StepsStep(s: Scene, from: Square, c: Color, aware: bool, dirs: seq<Offset>, i: nat, r0: seq<Highlight>, r: seq<Highlight>)
    requires i < |dirs|
    requires var t := Shift(from, dirs[i], 1); r == r0 + (if InBounds(t) && KingSafe(s, t, c, aware) then Target(s, t, c) else [])
    ensures r0 + Steps(s, from, c, aware, dirs, i) == r + Steps(s, from, c, aware, dirs, i + 1)
  {
    var t := Shift(from, dirs[i], 1);
    Assoc(r0, if InBounds(t) && KingSafe(s, t, c, aware) then Target(s, t, c) else [], Steps(s, from, c, aware, dirs, i + 1));
  }

  /** One adjacent square of ShowKingMoves; only the check-aware controller asks IsUnderAttack. */
  method AddKingStep(s: Scene, t: Square, c: Color, aware: bool, hs: seq<Highlight>, caps: map<nat, Square>)
    returns (hs': seq<Highlight>, caps': map<nat, Square>)
    requires caps == CaptureMap(s, hs)
    ensures hs' == hs + (if InBounds(t) && KingSafe(s, t, c, aware) then Target(s, t, c) else [])
    ensures caps' == CaptureMap(s, hs')
  {
    hs', caps' := hs, caps;
    if InBounds(t) {
      var attacked := false;
      if aware {
        attacked := IsUnderAttack(s, t, c);
      }
      if !attacked {
        hs', caps' := AddTarget(s, hs, caps, t, c);
        return;
      }
    }
    AppendNone(hs, []);
  }

  /** The body of ShowKingMoves' direction loop for `directions[i]`. */
  method KingStepAt(s: Scene, from: Square, c: Color, aware: bool, directions: seq<Offset>, i: nat,
                    hs: seq<Highlight>, caps: map<nat, Square>)
    returns (hs': seq<Highlight>, caps': map<nat, Square>)
    requires i < |directions| && caps == CaptureMap(s, hs)
    ensures hs + Steps(s, from, c, aware, directions, i) == hs' + Steps(s, from, c, aware, directions, i + 1)
    ensures caps' == CaptureMap(s, hs')
  {
    hs', caps' := AddKingStep(s, Square(from.x + directions[i].dx, from.y + directions[i].dy), c, aware, hs, caps);
    StepsStep(s, from, c, aware, directions, i, hs, hs');
  }

  /** The adjacent-square loop of ShowKingMoves over the direction table `directions`. */
  method AddKingSteps(s: Scene, from: Square, c: Color, aware: bool, directions: seq<Offset>)
    returns (hs: seq<Highlight>, caps: map<nat, Square>)
    ensures hs == Steps(s, from, c, aware, directions, 0) && caps == CaptureMap(s, hs)
  {
    hs, caps := [], map[];
    NoneAppend(Steps(s, from, c, aware, directions, 0));
    for i := 0 to |directions|
      invariant Steps(s, from, c, aware, directions, 0) == hs + Steps(s, from, c, aware, directions, i)
      invariant caps == CaptureMap(s, hs)
    {
      hs, caps := KingStepAt(s, from, c, aware, directions, i, hs, caps);
    }
    AppendNone(hs, Steps(s, from, c, aware, directions, |directions|));
  }

  /** CheckCastlingSide's path loop, with its early exit. */
  method IsPathClear(s: Scene, kingX: int, y: int, dir: int) returns (pathClear: bool)
    requires dir == 1 || dir == -1
    ensures pathClear == PathClear(s, y, kingX + dir, dir)
  {
    var rookX := RookFile(dir);
    var x := kingX + dir;
    while if dir > 0 then x < rookX else x > rookX
      invariant PathClear(s, y, x, dir) == PathClear(s, y, kingX + dir, dir)
      decreases if dir > 0 then 7 - x else x
    {
      if Occupied(s, Square(x, y)) {
        return false;
      }
      x := x + dir;
    }
    return true;
  }

  /** CheckCastlingSide. */
  method CheckCastlingSide(s: Scene, hasMoved: map<nat, bool>, from: Square, c: Color, dir: int,
                           hs: seq<Highlight>, caps: map<nat, Square>)
    returns (hs': seq<Highlight>, caps': map<nat, Square>)
    requires dir == 1 || dir == -1
    requires caps == CaptureMap(s, hs)
    ensures hs' == hs + CastleSide(s, hasMoved, from, c, dir) && caps' == CaptureMap(s, hs')
  {
    hs', caps' := hs, caps;
    var rookX := RookFile(dir);
    var castleDistance := CastleDistance(dir);
    var rook := PieceAt(s, Square(rookX, from.y));
    if rook.Some? && s[rook.value].kind == Rook && s[rook.value].color == c &&
       rook.value in hasMoved && !hasMoved[rook.value]
    {
      var pathClear := IsPathClear(s, from.x, from.y, dir);
      if pathClear {
        hs', caps' := AddNormal(s, hs, caps, Square(from.x + castleDistance * dir, from.y));
        return;
      }
    }
    AppendNone(hs, CastleSide(s, hasMoved, from, c, dir));
  }

  /** ShowKingMoves. */
  method ShowKingMoves(s: Scene, from: Square, c: Color, hasMoved: map<nat, bool>, moved: bool, aware: bool)
    returns (hs: seq<Highlight>, caps: map<nat, Square>)
    ensures hs == KingMoves(s, from, c, hasMoved, moved, aware) && caps == CaptureMap(s, hs)
  {
    hs, caps := AddKingSteps(s, from, c, aware, QueenDirs);
    if !moved {
      ghost var r0 := hs;
      hs, caps := CheckCastlingSide(s, hasMoved, from, c, 1, hs, caps);
      hs, caps := CheckCastlingSide(s, hasMoved, from, c, -1, hs, caps);
      Assoc(r0, CastleSide(s, hasMoved, from, c, 1), CastleSide(s, hasMoved, from, c, -1));
    } else {
      AppendNone(hs, []);
    }
  }

  /** CheckAndHighlightCapture. */
  method CheckAndHighlightCapture(s: Scene, t: Square, c: Color, hs: seq<Highlight>, caps: map<nat, Square>)
    returns (hs': seq<Highlight>, caps': map<nat, Square>)
    requires caps == CaptureMap(s, hs)
    ensures hs' == hs + PawnCapture(s, t, c) && caps' == CaptureMap(s, hs')
  {
    hs', caps' := hs, caps;
    if InBounds(t) {
      var enemyPiece := PieceAt(s, t);
      if enemyPiece.Some? && s[enemyPiece.value].color != c {
        hs', caps' := AddCapture(s, hs, caps, t, enemyPiece.value);
        return;
      }
    }
    AppendNone(hs, PawnCapture(s, t, c));
  }

  /** The forward steps of ShowPawnMoves; the double step is nested inside the single one. */
  method AddPawnPushes(s: Scene, from: Square, c: Color, moved: bool) returns (hs: seq<Highlight>, caps: map<nat, Square>)
    ensures hs == PawnPushes(s, from, c, moved) && caps == CaptureMap(s, hs)
  {
    hs, caps := [], map[];
    var direction := if c == White then 1 else -1;
    var forwardPos := Square(from.x, from.y + direction);
    if InBounds(forwardPos) && !Occupied(s, forwardPos) {
      hs, caps := AddNormal(s, hs, caps, forwardPos);
      if !moved {
        var doubleForwardPos := Square(from.x, from.y + 2 * direction);
        if InBounds(doubleForwardPos) && !Occupied(s, doubleForwardPos) {
          hs, caps := AddNormal(s, hs, caps, doubleForwardPos);
        }
      }
    }
  }

  /** ShowPawnMoves. */
  method ShowPawnMoves(s: Scene, from: Square, c: Color, moved: bool) returns (hs: seq<Highlight>, caps: map<nat, Square>)
    ensures hs == PawnMoves(s, from, c, moved) && caps == CaptureMap(s, hs)
  {
    var direction := if c == White then 1 else -1;
    hs, caps := AddPawnPushes(s, from, c, moved);
    hs, caps := CheckAndHighlightCapture(s, Square(from.x - 1, from.y + direction), c, hs, caps);
    hs, caps := CheckAndHighlightCapture(s, Square(from.x + 1, from.y + direction), c, hs, caps);
  }

  /** ShowValidMoves: dispatch on the selected piece's kind. */
  method ShowValidMoves(s: Scene, k: nat, hasMoved: map<nat, bool>, aware: bool)
    returns (hs: seq<Highlight>, caps: map<nat, Square>)
    requires k < |s| && k in hasMoved
    ensures hs == Highlights(s, k, hasMoved, aware) && caps == CaptureMap(s, hs)
  {
    var p := s[k];
    match p.kind
    case Pawn =>
      hs, caps := ShowPawnMoves(s, p.sq, p.color, hasMoved[k]);
    case Knight =>
      hs, caps := ShowKnightMoves(s, p.sq, p.color, KnightJumps);
    case Bishop =>
      hs, caps := AddRays(s, p.sq, p.color, BishopDirs, [], map[]);
    case Rook =>
      hs, caps := AddRays(s, p.sq, p.color, RookDirs, [], map[]);
    case Queen =>
      hs, caps := AddRays(s, p.sq, p.color, QueenDirs, [], map[]);
    case King =>
      hs, caps := ShowKingMoves(s, p.sq, p.color, hasMoved, hasMoved[k], aware);
  }
}
