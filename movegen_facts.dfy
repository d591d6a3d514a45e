/**
 * Properties of the move generator: every highlight is on the board, a normal
 * one marks a free square and a capture one an enemy; rays stop at their first
 * blocker; the knight and king tables are offered exactly where they land on
 * the board; the check-aware king never steps onto an attacked square; and the
 * capture map holds exactly the pieces under capture highlights.
 */
module MoveGenFacts {
  import opened Chess
  import opened AttackMap
  import opened MoveGen

  /** What a highlight promises the side `c`: on the board, a free square when normal, an enemy when a capture. */
  predicate Sound(s: Scene, c: Color, h: Highlight)
  {
    && InBounds(h.sq)
    && (if h.capture then PieceAt(s, h.sq).Some? && s[PieceAt(s, h.sq).value].color != c
        else !Occupied(s, h.sq))
  }

  predicate AllSound(s: Scene, c: Color, hs: seq<Highlight>)
  {
    forall j :: 0 <= j < |hs| ==> Sound(s, c, hs[j])
  }

  lemma AllSoundAppend(s: Scene, c: Color, a: seq<Highlight>, b: seq<Highlight>)
    ensures AllSound(s, c, a + b) <==> AllSound(s, c, a) && AllSound(s, c, b)
  {
    if AllSound(s, c, a) && AllSound(s, c, b) {
      forall j | 0 <= j < |a + b|
        ensures Sound(s, c, (a + b)[j])
      {
        if j < |a| {
          assert (a + b)[j] == a[j];
        } else {
          assert (a + b)[j] == b[j - |a|];
        }
      }
    }
    if AllSound(s, c, a + b) {
      forall j | 0 <= j < |a|
        ensures Sound(s, c, a[j])
      {
        assert (a + b)[j] == a[j];
      }
      forall j | 0 <= j < |b|
        ensures Sound(s, c, b[j])
      {
        assert (a + b)[|a| + j] == b[j];
      }
    }
  }

  /** Target offers exactly the square `t`: as a normal move when free, as a capture when an enemy holds it. */
  lemma TargetSpec(s: Scene, t: Square, c: Color, h: Highlight)
    ensures h in Target(s, t, c) <==>
      h.sq == t && (if h.capture then PieceAt(s, t).Some? && s[PieceAt(s, t).value].color != c else !Occupied(s, t))
  {
  }

  lemma TargetSound(s: Scene, t: Square, c: Color)
    requires InBounds(t)
    ensures AllSound(s, c, Target(s, t, c))
  {
  }

  lemma {:induction false} RaySound(s: Scene, from: Square, c: Color, o: Offset, d: nat)
    ensures AllSound(s, c, Ray(s, from, c, o, d))
    decreases 8 - d
  {
    if d <= 7 {
      var t := Shift(from, o, d);
      if InBounds(t) {
        if !Occupied(s, t) {
          RaySound(s, from, c, o, d + 1);
          AllSoundAppend(s, c, [Highlight(t, false)], Ray(s, from, c, o, d + 1));
        } else {
          TargetSound(s, t, c);
        }
      }
    }
  }

  /** A ray is the run of consecutive squares `Shift(from, o, d)`, `Shift(from, o, d + 1)`, …, every one but the last free. */
  lemma {:induction false} RayRun(s: Scene, from: Square, c: Color, o: Offset, d: nat)
    requires 1 <= d <= 8
    ensures var r := Ray(s, from, c, o, d);
      && |r| <= 8 - d
      && (forall j :: 0 <= j < |r| ==> r[j].sq == Shift(from, o, d + j))
      && (forall j :: 0 <= j < |r| - 1 ==> !Occupied(s, r[j].sq))
    decreases 8 - d
  {
    if d <= 7 {
      var t := Shift(from, o, d);
      if InBounds(t) && !Occupied(s, t) {
        var r := Ray(s, from, c, o, d);
        var rest := Ray(s, from, c, o, d + 1);
        RayRun(s, from, c, o, d + 1);
        assert r == [Highlight(t, false)] + rest;
        forall j | 0 <= j < |r|
          ensures r[j].sq == Shift(from, o, d + j)
        {
          if j > 0 {
            assert r[j] == rest[j - 1];
          }
        }
        forall j | 0 <= j < |r| - 1
          ensures !Occupied(s, r[j].sq)
        {
          if j > 0 {
            assert r[j] == rest[j - 1];
          }
        }
      }
    }
  }

  /**
   * A ray that ends on a free square, or is empty, ends because the next square
   * is past distance 7, off the board, or held by a friend; otherwise it ends on
   * its first occupied square, an enemy offered as a capture.
   */
  lemma {:induction false} RayStop(s: Scene, from: Square, c: Color, o: Offset, d: nat)
    requires 1 <= d <= 8
    ensures var r := Ray(s, from, c, o, d);
      (r == [] || !r[|r| - 1].capture) ==>
        var n := Shift(from, o, d + |r|);
        d + |r| > 7 || !InBounds(n) || (PieceAt(s, n).Some? && s[PieceAt(s, n).value].color == c)
    decreases 8 - d
  {
    if d <= 7 {
      var t := Shift(from, o, d);
      if InBounds(t) && !Occupied(s, t) {
        var r := Ray(s, from, c, o, d);
        var rest := Ray(s, from, c, o, d + 1);
        RayStop(s, from, c, o, d + 1);
        assert r == [Highlight(t, false)] + rest;
        assert d + |r| == (d + 1) + |rest|;
        if rest != [] {
          assert r[|r| - 1] == rest[|rest| - 1];
        }
      }
    }
  }

  lemma {:induction false} RaysSound(s: Scene, from: Square, c: Color, dirs: seq<Offset>, i: nat)
    requires i <= |dirs|
    ensures AllSound(s, c, Rays(s, from, c, dirs, i))
    decreases |dirs| - i
  {
    if i < |dirs| {
      RaySound(s, from, c, dirs[i], 1);
      RaysSound(s, from, c, dirs, i + 1);
      AllSoundAppend(s, c, Ray(s, from, c, dirs[i], 1), Rays(s, from, c, dirs, i + 1));
    }
  }

  /** The jump table is offered exactly where it lands on the board, each landing square as Target decides. */
  lemma {:induction false} JumpsSpec(s: Scene, from: Square, c: Color, jumps: seq<Offset>, i: nat, h: Highlight)
    requires i <= |jumps|
    ensures h in Jumps(s, from, c, jumps, i) <==>
      exists k :: i <= k < |jumps| && InBounds(Shift(from, jumps[k], 1)) && h in Target(s, Shift(from, jumps[k], 1), c)
    decreases |jumps| - i
  {
    if i < |jumps| {
      JumpsSpec(s, from, c, jumps, i + 1, h);
      var t := Shift(from, jumps[i], 1);
      if InBounds(t) && h in Target(s, t, c) {
        assert i <= i < |jumps| && InBounds(Shift(from, jumps[i], 1)) && h in Target(s, Shift(from, jumps[i], 1), c);
      }
    }
  }

  lemma {:induction false} JumpsSound(s: Scene, from: Square, c: Color, jumps: seq<Offset>, i: nat)
    requires i <= |jumps|
    ensures AllSound(s, c, Jumps(s, from, c, jumps, i))
    decreases |jumps| - i
  {
    if i < |jumps| {
      var t := Shift(from, jumps[i], 1);
      var here := if InBounds(t) then Target(s, t, c) else [];
      if InBounds(t) {
        TargetSound(s, t, c);
      }
      JumpsSound(s, from, c, jumps, i + 1);
      AllSoundAppend(s, c, here, Jumps(s, from, c, jumps, i + 1));
    }
  }

  /** The king's table is offered exactly where it lands on the board and passes the filter. */
  lemma {:induction false} StepsSpec(s: Scene, from: Square, c: Color, aware: bool, dirs: seq<Offset>, i: nat, h: Highlight)
    requires i <= |dirs|
    ensures h in Steps(s, from, c, aware, dirs, i) <==>
      exists k :: i <= k < |dirs| && InBounds(Shift(from, dirs[k], 1)) && KingSafe(s, Shift(from, dirs[k], 1), c, aware)
        && h in Target(s, Shift(from, dirs[k], 1), c)
    decreases |dirs| - i
  {
    if i < |dirs| {
      StepsSpec(s, from, c, aware, dirs, i + 1, h);
      var t := Shift(from, dirs[i], 1);
      if InBounds(t) && KingSafe(s, t, c, aware) && h in Target(s, t, c) {
        assert i <= i < |dirs| && InBounds(Shift(from, dirs[i], 1)) && KingSafe(s, Shift(from, dirs[i], 1), c, aware)
          && h in Target(s, Shift(from, dirs[i], 1), c);
      }
    }
  }

  lemma {:induction false} StepsSound(s: Scene, from: Square, c: Color, aware: bool, dirs: seq<Offset>, i: nat)
    requires i <= |dirs|
    ensures AllSound(s, c, Steps(s, from, c, aware, dirs, i))
    decreases |dirs| - i
  {
    if i < |dirs| {
      var t := Shift(from, dirs[i], 1);
      var here := if InBounds(t) && KingSafe(s, t, c, aware) then Target(s, t, c) else [];
      if InBounds(t) {
        TargetSound(s, t, c);
      }
      StepsSound(s, from, c, aware, dirs, i + 1);
      AllSoundAppend(s, c, here, Steps(s, from, c, aware, dirs, i + 1));
    }
  }

  /**
   * The check-aware king never offers an attacked adjacent square, and offers
   * exactly the squares of the unfiltered king that are not attacked.
   */
  lemma AwareStepsSafe(s: Scene, from: Square, c: Color, h: Highlight)
    ensures h in Steps(s, from, c, true, QueenDirs, 0) <==>
      h in Steps(s, from, c, false, QueenDirs, 0) && !UnderAttack(s, h.sq, c)
  {
    StepsSpec(s, from, c, true, QueenDirs, 0, h);
    StepsSpec(s, from, c, false, QueenDirs, 0, h);
    if h in Steps(s, from, c, true, QueenDirs, 0) {
      var k :| 0 <= k < |QueenDirs| && InBounds(Shift(from, QueenDirs[k], 1)) && KingSafe(s, Shift(from, QueenDirs[k], 1), c, true)
        && h in Target(s, Shift(from, QueenDirs[k], 1), c);
      TargetSpec(s, Shift(from, QueenDirs[k], 1), c, h);
      assert KingSafe(s, Shift(from, QueenDirs[k], 1), c, false);
    }
    if h in Steps(s, from, c, false, QueenDirs, 0) && !UnderAttack(s, h.sq, c) {
      var k :| 0 <= k < |QueenDirs| && InBounds(Shift(from, QueenDirs[k], 1)) && KingSafe(s, Shift(from, QueenDirs[k], 1), c, false)
        && h in Target(s, Shift(from, QueenDirs[k], 1), c);
      TargetSpec(s, Shift(from, QueenDirs[k], 1), c, h);
      assert KingSafe(s, Shift(from, QueenDirs[k], 1), c, true);
    }
  }

  /** An unmoved rook of colour `c`, tracked in `hasMoved`, stands on `sq`. */
  predicate RookReady(s: Scene, hasMoved: map<nat, bool>, sq: Square, c: Color)
  {
    match PieceAt(s, sq)
    case None => false
    case Some(r) => s[r].kind == Rook && s[r].color == c && r in hasMoved && !hasMoved[r]
  }

  /**
   * For a king on file 4 (e1 or e8): kingside castling needs an unmoved rook on
   * file 7 and files 5 and 6 free, and is offered on file 6; queenside castling
   * needs an unmoved rook on file 0 and files 3, 2 and 1 free, and is offered
   * three files away, on file 1.  Both are normal highlights on the board.
   */
  lemma CastlingFromE(s: Scene, hasMoved: map<nat, bool>, from: Square, c: Color)
    requires from.x == 4 && 0 <= from.y <= 7
    ensures CastleAllowed(s, hasMoved, from, c, 1) <==>
      RookReady(s, hasMoved, Square(7, from.y), c) && !Occupied(s, Square(5, from.y)) && !Occupied(s, Square(6, from.y))
    ensures CastleAllowed(s, hasMoved, from, c, -1) <==>
      RookReady(s, hasMoved, Square(0, from.y), c)
        && !Occupied(s, Square(3, from.y)) && !Occupied(s, Square(2, from.y)) && !Occupied(s, Square(1, from.y))
    ensures Castling(s, hasMoved, from, c) ==
      (if CastleAllowed(s, hasMoved, from, c, 1) then [Highlight(Square(6, from.y), false)] else [])
      + (if CastleAllowed(s, hasMoved, from, c, -1) then [Highlight(Square(1, from.y), false)] else [])
    ensures AllSound(s, c, Castling(s, hasMoved, from, c))
  {
    var y := from.y;
    assert PathClear(s, y, 5, 1) == (!Occupied(s, Square(5, y)) && PathClear(s, y, 6, 1));
    assert PathClear(s, y, 6, 1) == (!Occupied(s, Square(6, y)) && PathClear(s, y, 7, 1));
    assert PathClear(s, y, 3, -1) == (!Occupied(s, Square(3, y)) && PathClear(s, y, 2, -1));
    assert PathClear(s, y, 2, -1) == (!Occupied(s, Square(2, y)) && PathClear(s, y, 1, -1));
    assert PathClear(s, y, 1, -1) == (!Occupied(s, Square(1, y)) && PathClear(s, y, 0, -1));
    AllSoundAppend(s, c, CastleSide(s, hasMoved, from, c, 1), CastleSide(s, hasMoved, from, c, -1));
  }

  /**
   * A pawn's captures are one rank forward and one file aside; its normal moves
   * stay on its file: one rank forward, or two when it has not moved and the
   * square in between is free.
   */
  lemma PawnMovesShape(s: Scene, from: Square, c: Color, moved: bool, h: Highlight)
    requires h in PawnMoves(s, from, c, moved)
    ensures h.capture ==> h.sq.y == from.y + Forward(c) && (h.sq.x == from.x - 1 || h.sq.x == from.x + 1)
    ensures !h.capture ==>
      && h.sq.x == from.x
      && (h.sq.y == from.y + Forward(c) ||
          (!moved && h.sq.y == from.y + 2 * Forward(c) && !Occupied(s, Square(from.x, from.y + Forward(c)))))
  {
  }

  lemma PawnCaptureSound(s: Scene, t: Square, c: Color)
    ensures AllSound(s, c, PawnCapture(s, t, c))
  {
  }

  lemma PawnPushesSound(s: Scene, from: Square, c: Color, moved: bool)
    ensures AllSound(s, c, PawnPushes(s, from, c, moved))
  {
    var fwd := Square(from.x, from.y + Forward(c));
    if InBounds(fwd) && !Occupied(s, fwd) {
      assert AllSound(s, c, DoubleStep(s, from, c, moved));
      assert Sound(s, c, Highlight(fwd, false));
      AllSoundAppend(s, c, [Highlight(fwd, false)], DoubleStep(s, from, c, moved));
    }
  }

  lemma PawnMovesSound(s: Scene, from: Square, c: Color, moved: bool)
    ensures AllSound(s, c, PawnMoves(s, from, c, moved))
  {
    var dir := Forward(c);
    var pushes := PawnPushes(s, from, c, moved);
    var left := PawnCapture(s, Square(from.x - 1, from.y + dir), c);
    var right := PawnCapture(s, Square(from.x + 1, from.y + dir), c);
    PawnPushesSound(s, from, c, moved);
    PawnCaptureSound(s, Square(from.x - 1, from.y + dir), c);
    PawnCaptureSound(s, Square(from.x + 1, from.y + dir), c);
    AllSoundAppend(s, c, pushes, left);
    AllSoundAppend(s, c, pushes + left, right);
  }

  /**
   * Every highlight of a piece standing on the board is sound, provided an
   * unmoved king stands on its home file 4.
   */
  lemma HighlightsSound(s: Scene, k: nat, hasMoved: map<nat, bool>, aware: bool)
    requires k < |s| && k in hasMoved && InBounds(s[k].sq)
    requires s[k].kind == King && !hasMoved[k] ==> s[k].sq.x == 4
    ensures AllSound(s, s[k].color, Highlights(s, k, hasMoved, aware))
  {
    var p := s[k];
    match p.kind
    case Pawn => PawnMovesSound(s, p.sq, p.color, hasMoved[k]);
    case Knight => JumpsSound(s, p.sq, p.color, KnightJumps, 0);
    case Bishop => RaysSound(s, p.sq, p.color, BishopDirs, 0);
    case Rook => RaysSound(s, p.sq, p.color, RookDirs, 0);
    case Queen => RaysSound(s, p.sq, p.color, QueenDirs, 0);
    case King =>
      StepsSound(s, p.sq, p.color, aware, QueenDirs, 0);
      if !hasMoved[k] {
        CastlingFromE(s, hasMoved, p.sq, p.color);
        AllSoundAppend(s, p.color, Steps(s, p.sq, p.color, aware, QueenDirs, 0), Castling(s, hasMoved, p.sq, p.color));
      } else {
        AllSoundAppend(s, p.color, Steps(s, p.sq, p.color, aware, QueenDirs, 0), []);
      }
  }

  /** On a scene without shared squares no highlight of an active piece is its own square. */
  lemma HighlightsLeaveSquare(s: Scene, k: nat, hasMoved: map<nat, bool>, aware: bool, h: Highlight)
    requires Distinct(s) && k < |s| && k in hasMoved && s[k].active
    requires AllSound(s, s[k].color, Highlights(s, k, hasMoved, aware))
    requires h in Highlights(s, k, hasMoved, aware)
    ensures h.sq != s[k].sq
  {
    PieceAtUnique(s, s[k].sq, k);
    var j :| 0 <= j < |Highlights(s, k, hasMoved, aware)| && Highlights(s, k, hasMoved, aware)[j] == h;
    assert Sound(s, s[k].color, h);
  }

  /**
   * The capture map holds exactly the pieces found under capture highlights,
   * each mapped to a square it stands on.
   */
  lemma {:induction false} CaptureMapSpec(s: Scene, hs: seq<Highlight>, p: nat)
    ensures p in CaptureMap(s, hs) <==> exists j :: 0 <= j < |hs| && hs[j].capture && PieceAt(s, hs[j].sq) == Some(p)
    ensures p in CaptureMap(s, hs) ==> StandsOn(s, p, CaptureMap(s, hs)[p]) && PieceAt(s, CaptureMap(s, hs)[p]) == Some(p)
    decreases |hs|
  {
    if hs != [] {
      var init := hs[..|hs| - 1];
      var h := hs[|hs| - 1];
      CaptureMapSpec(s, init, p);
      assert hs == init + [h];
      forall j | 0 <= j < |init|
        ensures hs[j] == init[j]
      {
      }
      if exists j :: 0 <= j < |init| && init[j].capture && PieceAt(s, init[j].sq) == Some(p) {
        var j :| 0 <= j < |init| && init[j].capture && PieceAt(s, init[j].sq) == Some(p);
        assert 0 <= j < |hs| && hs[j].capture && PieceAt(s, hs[j].sq) == Some(p);
      }
      if h.capture && PieceAt(s, h.sq) == Some(p) {
        assert 0 <= |hs| - 1 < |hs| && hs[|hs| - 1].capture && PieceAt(s, hs[|hs| - 1].sq) == Some(p);
      }
    }
  }

  /** A sound capture highlight only ever maps enemy pieces. */
  lemma CaptureMapEnemy(s: Scene, c: Color, hs: seq<Highlight>, p: nat)
    requires AllSound(s, c, hs) && p in CaptureMap(s, hs)
    ensures p < |s| && s[p].active && s[p].color != c && s[p].sq == CaptureMap(s, hs)[p]
  {
    CaptureMapSpec(s, hs, p);
    var j :| 0 <= j < |hs| && hs[j].capture && PieceAt(s, hs[j].sq) == Some(p);
    assert Sound(s, c, hs[j]);
  }
}
