/**
 * The attack map of the check-aware controller (finall.cs): the squares each
 * piece attacks (`GetPieceAttackMoves`, `AddDiagonalMoves`, `AddStraightMoves`),
 * whether a square is attacked (`IsUnderAttack`), and check detection
 * (`FindKing`, `IsKingInCheck`).
 *
 * Unlike move generation, attack lists are not filtered: pawn, knight and king
 * squares are not bounds-checked, and a ray includes its first blocker whatever
 * its colour.  In `AddStraightMoves` the horizontal and the vertical ray of one
 * sign share a single loop, so a blocker on either ends both.
 */
module AttackMap {
  import opened Chess

  /** The square `k` steps from `from` in direction (dx, dy). */
  function Along(from: Square, dx: int, dy: int, k: int): Square
  {
    Square(from.x + k * dx, from.y + k * dy)
  }

  /** One diagonal ray of AddDiagonalMoves from distance `i` on: off-board squares are skipped, the first occupied one ends it. */
  function DiagonalRay(s: Scene, from: Square, dx: int, dy: int, i: nat): seq<Square>
    decreases 8 - i
  {
    if i >= 8 then []
    else
      var p := Along(from, dx, dy, i);
      if !InBounds(p) then DiagonalRay(s, from, dx, dy, i + 1)
      else if Occupied(s, p) then [p]
      else [p] + DiagonalRay(s, from, dx, dy, i + 1)
  }

  /** The loop value -1 or 1 at index `k` of AddDiagonalMoves' `directions` array. */
  function Sign(k: int): int
  {
    if k == 0 then -1 else 1
  }

  /** The inner `dy` loop of AddDiagonalMoves for `dx == Sign(a)`, from index `b` on. */
  function DiagonalRow(s: Scene, from: Square, a: int, b: int): seq<Square>
    requires 0 <= b <= 2
    decreases 2 - b
  {
    if b == 2 then [] else DiagonalRay(s, from, Sign(a), Sign(b), 1) + DiagonalRow(s, from, a, b + 1)
  }

  /** The outer `dx` loop of AddDiagonalMoves from index `a` on. */
  function DiagonalFrom(s: Scene, from: Square, a: int): seq<Square>
    requires 0 <= a <= 2
    decreases 2 - a
  {
    if a == 2 then [] else DiagonalRow(s, from, a, 0) + DiagonalFrom(s, from, a + 1)
  }

  /** The four diagonal rays in loop order: (-1,-1), (-1,1), (1,-1), (1,1). */
  function DiagonalAttacks(s: Scene, from: Square): seq<Square>
  {
    DiagonalFrom(s, from, 0)
  }

  /** The square as a one-element list when it is on the board, else the empty list. */
  function OnBoard(sq: Square): seq<Square>
  {
    if InBounds(sq) then [sq] else []
  }

  lemma OnBoardAppend(r: seq<Square>, sq: Square)
    ensures r + OnBoard(sq) == if InBounds(sq) then r + [sq] else r
  {}

  /** A square on the board with a piece on it ends a ray. */
  predicate Blocks(s: Scene, sq: Square)
  {
    InBounds(sq) && Occupied(s, sq)
  }

  /**
   * The shared loop of AddStraightMoves for sign `d` from distance `i` on: at each
   * distance the horizontal square, then the vertical one; off-board squares are
   * skipped and the first occupied square on either line ends the loop.
   */
  function StraightRay(s: Scene, from: Square, d: int, i: nat): seq<Square>
    decreases 8 - i
  {
    if i >= 8 then []
    else
      var nx := Square(from.x + i * d, from.y);
      var ny := Square(from.x, from.y + i * d);
      if Blocks(s, nx) then [nx]
      else if Blocks(s, ny) then OnBoard(nx) + [ny]
      else OnBoard(nx) + OnBoard(ny) + StraightRay(s, from, d, i + 1)
  }

  /** AddStraightMoves' outer loop over the signs -1, 1 from index `a` on. */
  function StraightFrom(s: Scene, from: Square, a: int): seq<Square>
    requires 0 <= a <= 2
    decreases 2 - a
  {
    if a == 2 then [] else StraightRay(s, from, Sign(a), 1) + StraightFrom(s, from, a + 1)
  }

  function StraightAttacks(s: Scene, from: Square): seq<Square>
  {
    StraightFrom(s, from, 0)
  }

  const KnightDx: seq<int> := [-2, -1, 1, 2, 2, 1, -1, -2]
  const KnightDy: seq<int> := [1, 2, 2, 1, -1, -2, -2, -1]

  /** The knight offsets from index `i` on, none bounds-checked. */
  function KnightAttacks(from: Square, i: nat): seq<Square>
    requires i <= 8
    decreases 8 - i
  {
    if i == 8 then []
    else [Square(from.x + KnightDx[i], from.y + KnightDy[i])] + KnightAttacks(from, i + 1)
  }

  /** The king's loop body for file offset `dx` and rank offsets `dy`..1, skipping (0, 0). */
  function KingColumn(from: Square, dx: int, dy: int): seq<Square>
    requires -1 <= dy <= 2
    decreases 2 - dy
  {
    if dy == 2 then []
    else (if dx != 0 || dy != 0 then [Square(from.x + dx, from.y + dy)] else []) + KingColumn(from, dx, dy + 1)
  }

  /** The king's two nested loops from file offset `dx` on. */
  function KingAttacks(from: Square, dx: int): seq<Square>
    requires -1 <= dx <= 2
    decreases 2 - dx
  {
    if dx == 2 then [] else KingColumn(from, dx, -1) + KingAttacks(from, dx + 1)
  }

  /** Forward direction of a pawn of colour `c`. */
  function Forward(c: Color): int
  {
    if c == White then 1 else -1
  }

  /** GetPieceAttackMoves: the raw attack list of piece `i`. */
  function AttackMoves(s: Scene, i: nat): seq<Square>
    requires i < |s|
  {
    var p := s[i].sq;
    match s[i].kind
    case Pawn =>
      var dir := Forward(s[i].color);
      [Square(p.x - 1, p.y + dir), Square(p.x + 1, p.y + dir)]
    case Knight => KnightAttacks(p, 0)
    case Bishop => DiagonalAttacks(s, p)
    case Rook => StraightAttacks(s, p)
    case Queen => DiagonalAttacks(s, p) + StraightAttacks(s, p)
    case King => KingAttacks(p, -1)
  }

  /** Piece `i` is an active piece of the side opposing `c` whose attack list contains `pos`. */
  predicate AttackedBy(s: Scene, i: int, pos: Square, c: Color)
  {
    0 <= i < |s| && s[i].active && s[i].color != c && pos in AttackMoves(s, i)
  }

  /** For every piece id, whether that piece attacks `pos` against the side `c`. */
  function AttackFlags(s: Scene, pos: Square, c: Color): (r: seq<bool>)
    ensures |r| == |s|
  {
    seq(|s|, j requires 0 <= j < |s| => AttackedBy(s, j, pos, c))
  }

  /** IsUnderAttack's scan from piece `i` on: some later flag is set. */
  predicate AnyFrom(b: seq<bool>, i: nat)
    requires i <= |b|
    decreases |b| - i
  {
    i < |b| && (b[i] || AnyFrom(b, i + 1))
  }

  /** The scan from `i` succeeds exactly when some flag at or after `i` is set. */
  lemma {:induction false} AnyFromExists(b: seq<bool>, i: nat)
    requires i <= |b|
    ensures AnyFrom(b, i) <==> exists j :: i <= j < |b| && b[j]
    decreases |b| - i
  {
    if i < |b| {
      AnyFromExists(b, i + 1);
      if b[i] {
        assert i <= i < |b| && b[i];
      }
      if exists j :: i <= j < |b| && b[j] {
        var j :| i <= j < |b| && b[j];
        if j != i {
          assert i + 1 <= j < |b| && b[j];
        }
      }
    }
  }

  /** `pos` is attacked from the point of view of the side `c`. */
  predicate UnderAttack(s: Scene, pos: Square, c: Color)
  {
    AnyFrom(AttackFlags(s, pos, c), 0)
  }

  /** A square is attacked exactly when some active piece of the other side has it in its attack list. */
  lemma UnderAttackExists(s: Scene, pos: Square, c: Color)
    ensures UnderAttack(s, pos, c) <==> exists j :: 0 <= j < |s| && AttackedBy(s, j, pos, c)
  {
    var b := AttackFlags(s, pos, c);
    AnyFromExists(b, 0);
    if UnderAttack(s, pos, c) {
      var j :| 0 <= j < |b| && b[j];
      assert AttackedBy(s, j, pos, c);
    }
    if exists j :: 0 <= j < |s| && AttackedBy(s, j, pos, c) {
      var j :| 0 <= j < |s| && AttackedBy(s, j, pos, c);
      assert b[j];
    }
  }

  /** FindKing's answer: the first active king of colour `c` from index `i` on. */
  function FirstKingFrom(s: Scene, c: Color, i: nat): (r: Option<nat>)
    requires i <= |s|
    ensures r.Some? ==> i <= r.value < |s| && s[r.value].active && s[r.value].kind == King && s[r.value].color == c
    ensures r.None? <==> forall j :: i <= j < |s| ==> !(s[j].active && s[j].kind == King && s[j].color == c)
    decreases |s| - i
  {
    if i == |s| then None
    else if s[i].active && s[i].kind == King && s[i].color == c then Some(i)
    else FirstKingFrom(s, c, i + 1)
  }

  function FirstKing(s: Scene, c: Color): Option<nat>
  {
    FirstKingFrom(s, c, 0)
  }

  /** IsKingInCheck's answer: no king means no check; otherwise the king's square is attacked. */
  predicate InCheck(s: Scene, c: Color)
  {
    match FirstKing(s, c)
    case None => false
    case Some(k) => UnderAttack(s, s[k].sq, c)
  }

  // ---------------------------------------------------------------------------
  // The imperative routines of finall.cs and their specifications

  /**
   * One iteration of AddDiagonalMoves' innermost loop: what is left of the ray
   * at distance `i`, behind the list `r` built so far.
   */
  lemma DiagonalRayStep(s: Scene, from: Square, dx: int, dy: int, i: nat, r: seq<Square>)
    requires i < 8
    ensures var p := Square(from.x + i * dx, from.y + i * dy);
      && (!InBounds(p) ==> r + DiagonalRay(s, from, dx, dy, i) == r + DiagonalRay(s, from, dx, dy, i + 1))
      && (InBounds(p) && Occupied(s, p) ==> r + DiagonalRay(s, from, dx, dy, i) == r + [p])
      && (InBounds(p) && !Occupied(s, p) ==> r + DiagonalRay(s, from, dx, dy, i) == (r + [p]) + DiagonalRay(s, from, dx, dy, i + 1))
  {
    var p := Square(from.x + i * dx, from.y + i * dy);
    assert Along(from, dx, dy, i) == p;
    if InBounds(p) && !Occupied(s, p) {
      Assoc(r, [p], DiagonalRay(s, from, dx, dy, i + 1));
    }
  }

  /** Concatenation is associative. */
  lemma Assoc(a: seq<Square>, b: seq<Square>, c: seq<Square>)
    ensures a + (b + c) == (a + b) + c
  {}

  /** Appending the empty rest of a list changes nothing. */
  lemma AppendEmpty(r: seq<Square>, rest: seq<Square>)
    requires rest == []
    ensures r + rest == r
  {}

  /** The innermost loop of AddDiagonalMoves: one ray, appended to `moves`. */
  method AddDiagonalRay(s: Scene, from: Square, dx: int, dy: int, moves: seq<Square>) returns (r: seq<Square>)
    ensures r == moves + DiagonalRay(s, from, dx, dy, 1)
  {
    r := moves;
    for i := 1 to 8
      invariant moves + DiagonalRay(s, from, dx, dy, 1) == r + DiagonalRay(s, from, dx, dy, i)
    {
      DiagonalRayStep(s, from, dx, dy, i, r);
      var newPos := Square(from.x + i * dx, from.y + i * dy);
      if InBounds(newPos) {
        r := r + [newPos];
        if Occupied(s, newPos) {
          return;
        }
      }
    }
    AppendEmpty(r, DiagonalRay(s, from, dx, dy, 8));
  }

  lemma DiagonalRowStep(s: Scene, from: Square, a: int, b: int, r0: seq<Square>, r: seq<Square>)
    requires 0 <= b < 2
    requires r == r0 + DiagonalRay(s, from, Sign(a), Sign(b), 1)
    ensures r + DiagonalRow(s, from, a, b + 1) == r0 + DiagonalRow(s, from, a, b)
  {}

  lemma DiagonalFromStep(s: Scene, from: Square, a: int, r0: seq<Square>, r: seq<Square>)
    requires 0 <= a < 2
    requires r + DiagonalRow(s, from, a, 2) == r0 + DiagonalRow(s, from, a, 0)
    ensures r + DiagonalFrom(s, from, a + 1) == r0 + DiagonalFrom(s, from, a)
  {
    AppendEmpty(r, DiagonalRow(s, from, a, 2));
    Assoc(r0, DiagonalRow(s, from, a, 0), DiagonalFrom(s, from, a + 1));
  }

  method AddDiagonalMoves(s: Scene, from: Square, moves: seq<Square>) returns (r: seq<Square>)
    ensures r == moves + DiagonalAttacks(s, from)
  {
    r := moves;
    var directions := [-1, 1];
    for a := 0 to 2
      invariant r + DiagonalFrom(s, from, a) == moves + DiagonalAttacks(s, from)
    {
      var dx := directions[a];
      ghost var r1 := r;
      for b := 0 to 2
        invariant r + DiagonalRow(s, from, a, b) == r1 + DiagonalRow(s, from, a, 0)
      {
        var dy := directions[b];
        ghost var r0 := r;
        r := AddDiagonalRay(s, from, dx, dy, r);
        DiagonalRowStep(s, from, a, b, r0, r);
      }
      DiagonalFromStep(s, from, a, r1, r);
    }
    AppendEmpty(r, DiagonalFrom(s, from, 2));
  }

  /** One iteration of AddStraightMoves' inner loop, behind the list `r` built so far. */
  lemma StraightRayStep(s: Scene, from: Square, d: int, i: nat, r: seq<Square>, nx: Square, ny: Square)
    requires i < 8 && nx == Square(from.x + i * d, from.y) && ny == Square(from.x, from.y + i * d)
    ensures Blocks(s, nx) ==> r + StraightRay(s, from, d, i) == r + OnBoard(nx)
    ensures !Blocks(s, nx) && Blocks(s, ny) ==> r + StraightRay(s, from, d, i) == (r + OnBoard(nx)) + [ny]
    ensures !Blocks(s, nx) && !Blocks(s, ny) ==>
      r + StraightRay(s, from, d, i) == ((r + OnBoard(nx)) + OnBoard(ny)) + StraightRay(s, from, d, i + 1)
  {
    var rest := StraightRay(s, from, d, i + 1);
    if Blocks(s, nx) {
      assert StraightRay(s, from, d, i) == [nx] == OnBoard(nx);
    } else if Blocks(s, ny) {
      assert StraightRay(s, from, d, i) == OnBoard(nx) + [ny];
      Assoc(r, OnBoard(nx), [ny]);
    } else {
      assert StraightRay(s, from, d, i) == OnBoard(nx) + OnBoard(ny) + rest;
      Assoc(r, OnBoard(nx) + OnBoard(ny), rest);
      Assoc(r, OnBoard(nx), OnBoard(ny));
    }
  }

  /** The inner loop of AddStraightMoves for one sign `d`, appended to `moves`. */
  method AddStraightLine(s: Scene, from: Square, d: int, moves: seq<Square>) returns (r: seq<Square>)
    ensures r == moves + StraightRay(s, from, d, 1)
  {
    r := moves;
    for i := 1 to 8
      invariant moves + StraightRay(s, from, d, 1) == r + StraightRay(s, from, d, i)
    {
      var newX := Square(from.x + i * d, from.y);
      var newY := Square(from.x, from.y + i * d);
      StraightRayStep(s, from, d, i, r, newX, newY);
      OnBoardAppend(r, newX);
      if InBounds(newX) {
        r := r + [newX];
        if Occupied(s, newX) {
          return;
        }
      }
      OnBoardAppend(r, newY);
      if InBounds(newY) {
        r := r + [newY];
        if Occupied(s, newY) {
          return;
        }
      }
    }
    AppendEmpty(r, StraightRay(s, from, d, 8));
  }

  lemma StraightFromStep(s: Scene, from: Square, a: int, r0: seq<Square>, r: seq<Square>)
    requires 0 <= a < 2
    requires r == r0 + StraightRay(s, from, Sign(a), 1)
    ensures r + StraightFrom(s, from, a + 1) == r0 + StraightFrom(s, from, a)
  {}

  method AddStraightMoves(s: Scene, from: Square, moves: seq<Square>) returns (r: seq<Square>)
    ensures r == moves + StraightAttacks(s, from)
  {
    r := moves;
    var directions := [-1, 1];
    for a := 0 to 2
      invariant r + StraightFrom(s, from, a) == moves + StraightAttacks(s, from)
    {
      ghost var r0 := r;
      r := AddStraightLine(s, from, directions[a], r);
      StraightFromStep(s, from, a, r0, r);
    }
    AppendEmpty(r, StraightFrom(s, from, 2));
  }

  lemma KnightStep(from: Square, i: nat, r: seq<Square>)
    requires i < 8
    ensures r + KnightAttacks(from, i) == (r + [Square(from.x + KnightDx[i], from.y + KnightDy[i])]) + KnightAttacks(from, i + 1)
  {}

  /** The knight loop of GetPieceAttackMoves. */
  method AddKnightAttacks(from: Square, moves: seq<Square>) returns (r: seq<Square>)
    ensures r == moves + KnightAttacks(from, 0)
  {
    var dx := KnightDx;
    var dy := KnightDy;
    r := moves;
    for i := 0 to 8
      invariant moves + KnightAttacks(from, 0) == r + KnightAttacks(from, i)
    {
      KnightStep(from, i, r);
      r := r + [Square(from.x + dx[i], from.y + dy[i])];
    }
    AppendEmpty(r, KnightAttacks(from, 8));
  }

  lemma KingColumnStep(from: Square, dx: int, dy: int, r: seq<Square>)
    requires -1 <= dy < 2
    ensures r + KingColumn(from, dx, dy) ==
      (if dx != 0 || dy != 0 then r + [Square(from.x + dx, from.y + dy)] else r) + KingColumn(from, dx, dy + 1)
  {}

  lemma KingAttacksStep(from: Square, dx: int, r0: seq<Square>, r: seq<Square>)
    requires -1 <= dx < 2
    requires r0 + KingColumn(from, dx, -1) == r + KingColumn(from, dx, 2)
    ensures r0 + KingAttacks(from, dx) == r + KingAttacks(from, dx + 1)
  {
    AppendEmpty(r, KingColumn(from, dx, 2));
    Assoc(r0, KingColumn(from, dx, -1), KingAttacks(from, dx + 1));
  }

  /** The king loops of GetPieceAttackMoves. */
  method AddKingAttacks(from: Square, moves: seq<Square>) returns (r: seq<Square>)
    ensures r == moves + KingAttacks(from, -1)
  {
    r := moves;
    for dx := -1 to 2
      invariant moves + KingAttacks(from, -1) == r + KingAttacks(from, dx)
    {
      ghost var r1 := r;
      for dy := -1 to 2
        invariant r1 + KingColumn(from, dx, -1) == r + KingColumn(from, dx, dy)
      {
        KingColumnStep(from, dx, dy, r);
        if dx != 0 || dy != 0 {
          r := r + [Square(from.x + dx, from.y + dy)];
        }
      }
      KingAttacksStep(from, dx, r1, r);
    }
    AppendEmpty(r, KingAttacks(from, 2));
  }

  /** Prepending the empty list changes nothing. */
  lemma EmptyAppend(rest: seq<Square>)
    ensures [] + rest == rest
  {}

  method GetPieceAttackMoves(s: Scene, i: nat) returns (moves: seq<Square>)
    requires i < |s|
    ensures moves == AttackMoves(s, i)
  {
    var piecePos := s[i].sq;
    match s[i].kind
    case Pawn =>
      var direction := if s[i].color == White then 1 else -1;
      moves := [Square(piecePos.x - 1, piecePos.y + direction), Square(piecePos.x + 1, piecePos.y + direction)];
    case Knight =>
      moves := AddKnightAttacks(piecePos, []);
      EmptyAppend(KnightAttacks(piecePos, 0));
    case Bishop =>
      moves := AddDiagonalMoves(s, piecePos, []);
      EmptyAppend(DiagonalAttacks(s, piecePos));
    case Rook =>
      moves := AddStraightMoves(s, piecePos, []);
      EmptyAppend(StraightAttacks(s, piecePos));
    case Queen =>
      moves := AddDiagonalMoves(s, piecePos, []);
      EmptyAppend(DiagonalAttacks(s, piecePos));
      moves := AddStraightMoves(s, piecePos, moves);
    case King =>
      moves := AddKingAttacks(piecePos, []);
      EmptyAppend(KingAttacks(piecePos, -1));
  }

  /** One iteration of IsUnderAttack: whether piece `i` attacks `position`. */
  method AttacksSquare(s: Scene, i: nat, position: Square, c: Color) returns (hit: bool)
    requires i < |s|
    ensures hit == AttackedBy(s, i, position, c)
  {
    hit := false;
    if s[i].active && s[i].color != c {
      var attackMoves := GetPieceAttackMoves(s, i);
      hit := position in attackMoves;
    }
  }

  /** IsUnderAttack: whether some active piece not of colour `c` attacks `position`. */
  method IsUnderAttack(s: Scene, position: Square, c: Color) returns (attacked: bool)
    ensures attacked == UnderAttack(s, position, c)
  {
    ghost var flags := AttackFlags(s, position, c);
    for i := 0 to |s|
      invariant AnyFrom(flags, i) == UnderAttack(s, position, c)
    {
      var hit := AttacksSquare(s, i, position, c);
      assert flags[i] == hit;
      if hit {
        return true;
      }
    }
    return false;
  }

  /** FindKing: the first active king of colour `c`. */
  method FindKing(s: Scene, c: Color) returns (king: Option<nat>)
    ensures king == FirstKing(s, c)
    ensures king.Some? ==> s[king.value].kind == King && s[king.value].color == c && s[king.value].active
  {
    for i := 0 to |s|
      invariant FirstKingFrom(s, c, i) == FirstKing(s, c)
    {
      if s[i].active && s[i].kind == King && s[i].color == c {
        return Some(i);
      }
    }
    return None;
  }

  /** IsKingInCheck: false without a king, else whether the king's square is attacked. */
  method IsKingInCheck(s: Scene, c: Color) returns (check: bool)
    ensures check == InCheck(s, c)
    ensures FirstKing(s, c).None? ==> !check
    ensures FirstKing(s, c).Some? ==> (check <==> exists i :: 0 <= i < |s| && AttackedBy(s, i, s[FirstKing(s, c).value].sq, c))
  {
    if FirstKing(s, c).Some? {
      UnderAttackExists(s, s[FirstKing(s, c).value].sq, c);
    }
    var king := FindKing(s, c);
    if king.None? {
      return false;
    }
    var kingPos := s[king.value].sq;
    check := IsUnderAttack(s, kingPos, c);
  }

  // ---------------------------------------------------------------------------
  // Properties of the attack lists

  /** Every square of `r` is on the board, and every square but the last is free. */
  predicate StopsAtBlocker(s: Scene, r: seq<Square>)
  {
    && (forall j :: 0 <= j < |r| ==> InBounds(r[j]))
    && (forall j :: 0 <= j < |r| - 1 ==> !Occupied(s, r[j]))
  }

  /**
   * A diagonal ray lists squares of the board only, and every square but the
   * last is free: nothing beyond an occupied square is listed.  Which squares
   * the ray does list is DiagonalRayExactly.
   */
  lemma {:induction false} DiagonalRayStops(s: Scene, from: Square, dx: int, dy: int, i: nat)
    ensures StopsAtBlocker(s, DiagonalRay(s, from, dx, dy, i))
    decreases 8 - i
  {
    if i < 8 {
      DiagonalRayStops(s, from, dx, dy, i + 1);
      var p := Along(from, dx, dy, i);
      if InBounds(p) && !Occupied(s, p) {
        StopsAfterFree(s, p, DiagonalRay(s, from, dx, dy, i + 1));
      }
    }
  }

  /** A free square of the board in front of a ray that stops at its blocker gives such a ray. */
  lemma StopsAfterFree(s: Scene, p: Square, rest: seq<Square>)
    requires InBounds(p) && !Occupied(s, p) && StopsAtBlocker(s, rest)
    ensures StopsAtBlocker(s, [p] + rest)
  {
    var r := [p] + rest;
    forall j | 0 <= j < |r|
      ensures InBounds(r[j]) && (j < |r| - 1 ==> !Occupied(s, r[j]))
    {
      if j > 0 {
        assert r[j] == rest[j - 1];
      }
    }
  }

  /** No square of the board at distances `i`..`k - 1` along (dx, dy) holds a piece. */
  predicate Clear(s: Scene, from: Square, dx: int, dy: int, i: int, k: int)
  {
    forall j :: i <= j < k ==> !Blocks(s, Along(from, dx, dy, j))
  }

  /** `sq` is the board square at distance `k` along (dx, dy), with every square before it from distance `i` on free. */
  predicate DiagonalReach(s: Scene, from: Square, dx: int, dy: int, i: int, k: int, sq: Square)
  {
    i <= k < 8 && sq == Along(from, dx, dy, k) && InBounds(sq) && Clear(s, from, dx, dy, i, k)
  }

  /**
   * A diagonal ray from distance `i` lists exactly the board squares up to
   * distance 7 whose predecessors on the line are free: it runs to the edge
   * when nothing is in the way and includes the first occupied square,
   * whatever the colour of the piece on it.
   */
  lemma DiagonalRayExactly(s: Scene, from: Square, dx: int, dy: int, i: nat, sq: Square)
    ensures sq in DiagonalRay(s, from, dx, dy, i) <==> exists k :: DiagonalReach(s, from, dx, dy, i, k, sq)
  {
    if sq in DiagonalRay(s, from, dx, dy, i) {
      var k := DiagonalRayOnly(s, from, dx, dy, i, sq);
    }
    if exists k :: DiagonalReach(s, from, dx, dy, i, k, sq) {
      var k :| DiagonalReach(s, from, dx, dy, i, k, sq);
      DiagonalRayReaches(s, from, dx, dy, i, k, sq);
    }
  }

  /** Every square of a diagonal ray is reached from distance `i` at some distance `k`. */
  lemma {:induction false} DiagonalRayOnly(s: Scene, from: Square, dx: int, dy: int, i: nat, sq: Square) returns (k: int)
    requires sq in DiagonalRay(s, from, dx, dy, i)
    ensures DiagonalReach(s, from, dx, dy, i, k, sq)
    decreases 8 - i
  {
    var p := Along(from, dx, dy, i);
    if sq == p && InBounds(p) {
      k := i;
    } else {
      k := DiagonalRayOnly(s, from, dx, dy, i + 1, sq);
      assert !Blocks(s, p);
      ClearExtend(s, from, dx, dy, i, k);
    }
  }

  lemma ClearExtend(s: Scene, from: Square, dx: int, dy: int, i: int, k: int)
    requires Clear(s, from, dx, dy, i + 1, k) && !Blocks(s, Along(from, dx, dy, i))
    ensures Clear(s, from, dx, dy, i, k)
  {
  }

  /** A diagonal ray from distance `i` includes every square it reaches. */
  lemma {:induction false} DiagonalRayReaches(s: Scene, from: Square, dx: int, dy: int, i: nat, k: int, sq: Square)
    requires DiagonalReach(s, from, dx, dy, i, k, sq)
    ensures sq in DiagonalRay(s, from, dx, dy, i)
    decreases k - i
  {
    if k != i {
      assert !Blocks(s, Along(from, dx, dy, i));
      DiagonalRayReaches(s, from, dx, dy, i + 1, k, sq);
    }
  }

  /** The inner loop of AddDiagonalMoves for `dx == Sign(a)` is the ray towards -1, then the one towards 1. */
  lemma DiagonalRowRays(s: Scene, from: Square, a: int)
    ensures DiagonalRow(s, from, a, 0) == DiagonalRay(s, from, Sign(a), -1, 1) + DiagonalRay(s, from, Sign(a), 1, 1)
  {
    assert DiagonalRow(s, from, a, 1) == DiagonalRay(s, from, Sign(a), 1, 1) + [];
  }

  /** The outer loop of AddDiagonalMoves runs the inner one for -1, then for 1. */
  lemma DiagonalFromRows(s: Scene, from: Square)
    ensures DiagonalAttacks(s, from) == DiagonalRow(s, from, 0, 0) + DiagonalRow(s, from, 1, 0)
  {
    assert DiagonalFrom(s, from, 1) == DiagonalRow(s, from, 1, 0) + [];
  }

  /** The diagonal attack list is the four rays in loop order. */
  lemma DiagonalAttacksRays(s: Scene, from: Square)
    ensures DiagonalAttacks(s, from) ==
      (DiagonalRay(s, from, -1, -1, 1) + DiagonalRay(s, from, -1, 1, 1))
      + (DiagonalRay(s, from, 1, -1, 1) + DiagonalRay(s, from, 1, 1, 1))
  {
    DiagonalFromRows(s, from);
    DiagonalRowRays(s, from, 0);
    DiagonalRowRays(s, from, 1);
  }

  /**
   * The squares a bishop or queen attacks on its diagonals: those of the
   * board along one of the four diagonal directions up to distance 7 with
   * every square before them free.
   */
  lemma DiagonalAttacksExactly(s: Scene, from: Square, sq: Square)
    ensures sq in DiagonalAttacks(s, from) <==>
      exists dx, dy, k :: (dx == -1 || dx == 1) && (dy == -1 || dy == 1) && DiagonalReach(s, from, dx, dy, 1, k, sq)
  {
    DiagonalAttacksRays(s, from);
    DiagonalRayExactly(s, from, -1, -1, 1, sq);
    DiagonalRayExactly(s, from, -1, 1, 1, sq);
    DiagonalRayExactly(s, from, 1, -1, 1, sq);
    DiagonalRayExactly(s, from, 1, 1, 1, sq);
    if sq in DiagonalAttacks(s, from) {
      if sq in DiagonalRay(s, from, -1, -1, 1) {
        var k :| DiagonalReach(s, from, -1, -1, 1, k, sq);
        assert DiagonalReach(s, from, -1, -1, 1, k, sq);
      } else if sq in DiagonalRay(s, from, -1, 1, 1) {
        var k :| DiagonalReach(s, from, -1, 1, 1, k, sq);
        assert DiagonalReach(s, from, -1, 1, 1, k, sq);
      } else if sq in DiagonalRay(s, from, 1, -1, 1) {
        var k :| DiagonalReach(s, from, 1, -1, 1, k, sq);
        assert DiagonalReach(s, from, 1, -1, 1, k, sq);
      } else {
        var k :| DiagonalReach(s, from, 1, 1, 1, k, sq);
        assert DiagonalReach(s, from, 1, 1, 1, k, sq);
      }
    }
  }

  /**
   * `sq` is reached by the shared loop at distance `k`: both lines are free
   * before it from distance `i` on, and it is the horizontal square, or the
   * vertical one when the horizontal square at that distance does not block.
   */
  predicate StraightReach(s: Scene, from: Square, d: int, i: int, k: int, sq: Square)
  {
    && i <= k < 8 && InBounds(sq)
    && Clear(s, from, d, 0, i, k) && Clear(s, from, 0, d, i, k)
    && (sq == Along(from, d, 0, k) || (sq == Along(from, 0, d, k) && !Blocks(s, Along(from, d, 0, k))))
  }

  /**
   * The shared loop from distance `i` lists exactly the board squares of the
   * two lines reached before the first occupied square on either of them,
   * and that square.
   */
  lemma StraightRayExactly(s: Scene, from: Square, d: int, i: nat, sq: Square)
    ensures sq in StraightRay(s, from, d, i) <==> exists k :: StraightReach(s, from, d, i, k, sq)
  {
    if sq in StraightRay(s, from, d, i) {
      var k := StraightRayOnly(s, from, d, i, sq);
    }
    if exists k :: StraightReach(s, from, d, i, k, sq) {
      var k :| StraightReach(s, from, d, i, k, sq);
      StraightRayReaches(s, from, d, i, k, sq);
    }
  }

  /** Every square the shared loop lists is reached from distance `i` at some distance `k`. */
  lemma {:induction false} StraightRayOnly(s: Scene, from: Square, d: int, i: nat, sq: Square) returns (k: int)
    requires sq in StraightRay(s, from, d, i)
    ensures StraightReach(s, from, d, i, k, sq)
    decreases 8 - i
  {
    var nx := Along(from, d, 0, i);
    var ny := Along(from, 0, d, i);
    assert nx == Square(from.x + i * d, from.y) && ny == Square(from.x, from.y + i * d);
    if (sq == nx && InBounds(nx)) || (sq == ny && InBounds(ny) && !Blocks(s, nx)) {
      k := i;
    } else {
      k := StraightRayOnly(s, from, d, i + 1, sq);
      ClearExtend(s, from, d, 0, i, k);
      ClearExtend(s, from, 0, d, i, k);
    }
  }

  /** The shared loop from distance `i` lists every square it reaches. */
  lemma {:induction false} StraightRayReaches(s: Scene, from: Square, d: int, i: nat, k: int, sq: Square)
    requires StraightReach(s, from, d, i, k, sq)
    ensures sq in StraightRay(s, from, d, i)
    decreases k - i
  {
    var nx := Along(from, d, 0, i);
    var ny := Along(from, 0, d, i);
    assert nx == Square(from.x + i * d, from.y) && ny == Square(from.x, from.y + i * d);
    if k != i {
      assert !Blocks(s, nx) && !Blocks(s, ny);
      StraightRayReaches(s, from, d, i + 1, k, sq);
    }
  }

  /** The straight attack list is the shared loop for -1, then for 1. */
  lemma StraightAttacksRays(s: Scene, from: Square)
    ensures StraightAttacks(s, from) == StraightRay(s, from, -1, 1) + StraightRay(s, from, 1, 1)
  {
    assert StraightFrom(s, from, 2) == [];
  }

  /**
   * The squares a rook or queen attacks on its lines: those reached by the
   * shared loop for one of the signs -1, 1.
   */
  lemma StraightAttacksExactly(s: Scene, from: Square, sq: Square)
    ensures sq in StraightAttacks(s, from) <==>
      exists d, k :: (d == -1 || d == 1) && StraightReach(s, from, d, 1, k, sq)
  {
    StraightAttacksRays(s, from);
    StraightRayExactly(s, from, -1, 1, sq);
    StraightRayExactly(s, from, 1, 1, sq);
    if sq in StraightAttacks(s, from) {
      if sq in StraightRay(s, from, -1, 1) {
        var k :| StraightReach(s, from, -1, 1, k, sq);
        assert StraightReach(s, from, -1, 1, k, sq);
      } else {
        var k :| StraightReach(s, from, 1, 1, k, sq);
        assert StraightReach(s, from, 1, 1, k, sq);
      }
    }
  }

  /** One column of the king's loops holds the squares of file offset `dx` with rank offsets `dy`..1, the king's own square excluded. */
  lemma {:induction false} KingColumnExactly(from: Square, dx: int, dy: int, sq: Square)
    requires -1 <= dy <= 2
    ensures sq in KingColumn(from, dx, dy) <==>
      sq.x == from.x + dx && dy <= sq.y - from.y <= 1 && sq != from
    decreases 2 - dy
  {
    if dy < 2 {
      KingColumnExactly(from, dx, dy + 1, sq);
    }
  }

  /** The king's loops from file offset `dx` on hold the squares of file offsets `dx`..1 and rank offsets -1..1, the king's own square excluded. */
  lemma {:induction false} KingAttacksFrom(from: Square, dx: int, sq: Square)
    requires -1 <= dx <= 2
    ensures sq in KingAttacks(from, dx) <==>
      dx <= sq.x - from.x <= 1 && -1 <= sq.y - from.y <= 1 && sq != from
    decreases 2 - dx
  {
    if dx < 2 {
      KingColumnExactly(from, dx, -1, sq);
      KingAttacksFrom(from, dx + 1, sq);
    }
  }

  /** The king attacks exactly the eight squares around it, on the board or not. */
  lemma KingAttacksExactly(from: Square, sq: Square)
    ensures sq in KingAttacks(from, -1) <==>
      sq != from && -1 <= sq.x - from.x <= 1 && -1 <= sq.y - from.y <= 1
  {
    KingAttacksFrom(from, -1, sq);
  }

  /** A white rook on a1, a white knight on b1 and the black king on a2. */
  function LoopExample(): Scene
  {
    [Piece(Rook, White, Square(0, 0), true), Piece(Knight, White, Square(1, 0), true),
     Piece(King, Black, Square(0, 1), true)]
  }

  /** In LoopExample the knight on b1 ends both of the rook's lines. */
  lemma LoopExampleRook()
    ensures StraightAttacks(LoopExample(), Square(0, 0)) == [Square(1, 0)]
  {
    var s := LoopExample();
    var from := Square(0, 0);
    assert PieceAt(s, Square(1, 0)) == Some(1);
    assert StraightRay(s, from, 1, 1) == [Square(1, 0)];
    StraightRayOffBoard(s, from, 1);
    assert StraightFrom(s, from, 1) == [Square(1, 0)];
  }

  /**
   * The shared loop of AddStraightMoves: in LoopExample the knight ends the
   * rook's horizontal ray and with it the vertical one, so the black king on
   * the square next to the rook is not in check.
   */
  lemma SharedStraightLoopMissesCheck()
    ensures var s := LoopExample();
      && StraightAttacks(s, Square(0, 0)) == [Square(1, 0)]
      && FirstKing(s, Black) == Some(2)
      && !InCheck(s, Black)
  {
    var s := LoopExample();
    LoopExampleRook();
    LoopExampleUnattacked();
    assert FirstKingFrom(s, Black, 2) == Some(2);
    UnderAttackExists(s, Square(0, 1), Black);
  }

  /** In LoopExample no piece attacks a2 against Black. */
  lemma LoopExampleUnattacked()
    ensures forall j :: 0 <= j < |LoopExample()| ==> !AttackedBy(LoopExample(), j, Square(0, 1), Black)
  {
    LoopRookMisses();
    LoopKnightMisses();
  }

  lemma LoopRookMisses()
    ensures !AttackedBy(LoopExample(), 0, Square(0, 1), Black)
  {
    LoopExampleRook();
    assert AttackMoves(LoopExample(), 0) == [Square(1, 0)];
  }

  lemma LoopKnightMisses()
    ensures !AttackedBy(LoopExample(), 1, Square(0, 1), Black)
  {
    KnightAttacksShape(Square(1, 0), 0, Square(0, 1));
    assert AttackMoves(LoopExample(), 1) == KnightAttacks(Square(1, 0), 0);
  }

  /** The offset of a knight's jump: one square one way and two the other. */
  predicate KnightOffset(a: int, b: int)
  {
    ((a == 1 || a == -1) && (b == 2 || b == -2)) || ((a == 2 || a == -2) && (b == 1 || b == -1))
  }

  /** Every square of a knight's attack list lies a knight's jump away from it. */
  lemma {:induction false} KnightAttacksShape(from: Square, i: nat, sq: Square)
    requires i <= 8
    ensures sq in KnightAttacks(from, i) ==> KnightOffset(sq.x - from.x, sq.y - from.y)
    decreases 8 - i
  {
    if i < 8 {
      KnightAttacksShape(from, i + 1, sq);
    }
  }

  /** From a1, the rays towards negative coordinates leave the board at once. */
  lemma {:induction false} StraightRayOffBoard(s: Scene, from: Square, i: nat)
    requires from == Square(0, 0) && i >= 1
    ensures StraightRay(s, from, -1, i) == []
    decreases 8 - i
  {
    if i < 8 {
      StraightRayOffBoard(s, from, i + 1);
    }
  }
}
