/**
 * Value types shared by the two interaction controllers and the replay board:
 * colours, piece kinds, board squares, pieces in the scene and move highlights.
 *
 * The Unity scene is modelled as a sequence of pieces; a piece's id is its
 * index.  A piece that was captured (`SetActive(false)`) or destroyed stays in
 * the sequence with `active == false`, so ids are never reused, and every scene
 * query (`FindGameObjectsWithTag`, the physics overlap test) sees active pieces
 * only.  Piece kind and colour are explicit fields instead of substrings of the
 * game object's name.
 */
module Chess {

  datatype Option<T> = None | Some(value: T)

  datatype Color = White | Black

  /** The side that moves after `c`. */
  function Opponent(c: Color): (r: Color)
    ensures r != c
  {
    if c == White then Black else White
  }

  datatype Kind = Pawn | Knight | Bishop | Rook | Queen | King

  /** A board position with integer file `x` and rank `y`; both are 0..7 on the board. */
  datatype Square = Square(x: int, y: int)

  /** IsValidBoardPosition. */
  predicate InBounds(sq: Square)
  {
    0 <= sq.x <= 7 && 0 <= sq.y <= 7
  }

  datatype Piece = Piece(kind: Kind, color: Color, sq: Square, active: bool)

  /** The pieces of the scene, indexed by piece id. */
  type Scene = seq<Piece>

  /** A highlight marker: the square it stands on and whether it marks a capture. */
  datatype Highlight = Highlight(sq: Square, capture: bool)

  /** Piece `i` is active and stands on `sq`. */
  predicate StandsOn(s: Scene, i: int, sq: Square)
  {
    0 <= i < |s| && s[i].active && s[i].sq == sq
  }

  /**
   * GetPieceAtPosition: the first active piece standing on `sq`, or None.
   * The physics query returns some collider on the square; while no two active
   * pieces share a square (see `Distinct`) that is the only one.
   */
  function PieceAt(s: Scene, sq: Square): (r: Option<nat>)
    ensures r.Some? ==> StandsOn(s, r.value, sq)
  {
    PieceAtFrom(s, sq, 0)
  }

  function PieceAtFrom(s: Scene, sq: Square, i: nat): (r: Option<nat>)
    requires i <= |s|
    ensures r.Some? ==> i <= r.value && StandsOn(s, r.value, sq)
    decreases |s| - i
  {
    if i == |s| then None
    else if s[i].active && s[i].sq == sq then Some(i)
    else PieceAtFrom(s, sq, i + 1)
  }

  lemma {:induction false} PieceAtFromFirst(s: Scene, sq: Square, i: nat)
    requires i <= |s|
    ensures var r := PieceAtFrom(s, sq, i);
      && (r.Some? ==> forall j :: i <= j < r.value ==> !StandsOn(s, j, sq))
      && (r.None? <==> forall j :: i <= j < |s| ==> !StandsOn(s, j, sq))
    decreases |s| - i
  {
    if i < |s| {
      PieceAtFromFirst(s, sq, i + 1);
      if s[i].active && s[i].sq == sq {
        assert StandsOn(s, i, sq);
      }
    }
  }

  /** PieceAt finds the first active piece on `sq`, and finds none exactly when no active piece is there. */
  lemma PieceAtFirst(s: Scene, sq: Square)
    ensures var r := PieceAt(s, sq);
      && (r.Some? ==> forall j :: 0 <= j < r.value ==> !StandsOn(s, j, sq))
      && (r.None? <==> forall j :: 0 <= j < |s| ==> !StandsOn(s, j, sq))
  {
    PieceAtFromFirst(s, sq, 0);
  }

  /** IsOccupied. */
  predicate Occupied(s: Scene, sq: Square)
  {
    PieceAt(s, sq).Some?
  }

  /** No two active pieces stand on the same square. */
  predicate Distinct(s: Scene)
  {
    forall i, j :: 0 <= i < |s| && 0 <= j < |s| && i != j && s[i].active && s[j].active ==> s[i].sq != s[j].sq
  }

  /** Every piece, active or not, stands on the board. */
  predicate AllInBounds(s: Scene)
  {
    forall i :: 0 <= i < |s| ==> InBounds(s[i].sq)
  }

  /** On a scene without shared squares, the piece found on a square is the one standing there. */
  lemma PieceAtUnique(s: Scene, sq: Square, i: int)
    requires Distinct(s)
    ensures PieceAt(s, sq) == Some(i) <==> StandsOn(s, i, sq)
  {
    PieceAtFirst(s, sq);
  }
}
