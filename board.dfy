/**
 * The replay board (ChessBoard.cs): the pieces under `piecesContainer`, the
 * starting layout `PlacePieces` builds, coordinate parsing and `ApplyMove`.
 *
 * The container's children are a sequence in creation order; `GetPieceAt`
 * finds the first one on a square whether or not another stands there too.
 * `Destroy` is taken to take effect at once, so a destroyed piece leaves the
 * sequence.  A string that `ParseCoord` or `Substring` rejects with an
 * exception is reported as a `false` result, and leaves the board unchanged.
 */
module Board {
  import opened Chess
  import opened Notation

  datatype BoardPiece = BoardPiece(kind: Kind, color: Color, sq: Square)

  /** A parsed move: the square to take a piece from and the square to put it on. */
  datatype Move = Move(from: Square, to: Square)

  /** The back-rank order of `whitePieces` and `blackPieces`. */
  const BackRank: seq<Kind> := [Rook, Knight, Bishop, Queen, King, Bishop, Knight, Rook]

  /** PlacePieces' first loop after `n` iterations: a white pawn on rank 1 and a black pawn on rank 6 per file. */
  function PawnRanks(n: nat): seq<BoardPiece>
    requires n <= 8
  {
    if n == 0 then []
    else PawnRanks(n - 1) + [BoardPiece(Pawn, White, Square(n - 1, 1)), BoardPiece(Pawn, Black, Square(n - 1, 6))]
  }

  /** PlacePieces' second loop after `n` iterations: the white back rank on rank 0 and the black one on rank 7, file by file. */
  function BackRanks(n: nat): seq<BoardPiece>
    requires n <= 8
  {
    if n == 0 then []
    else BackRanks(n - 1) + [BoardPiece(BackRank[n - 1], White, Square(n - 1, 0)), BoardPiece(BackRank[n - 1], Black, Square(n - 1, 7))]
  }

  /** The pieces PlacePieces creates, in creation order. */
  function InitialPosition(): seq<BoardPiece>
  {
    PawnRanks(8) + BackRanks(8)
  }

  /** The piece created `j`-th by PlacePieces, by arithmetic on `j`. */
  function StartPiece(j: nat): BoardPiece
    requires j < 32
  {
    var white := j % 2 == 0;
    var c := if white then White else Black;
    if j < 16 then BoardPiece(Pawn, c, Square(j / 2, if white then 1 else 6))
    else BoardPiece(BackRank[(j - 16) / 2], c, Square((j - 16) / 2, if white then 0 else 7))
  }

  lemma {:induction false} PawnRanksLayout(n: nat)
    requires n <= 8
    ensures |PawnRanks(n)| == 2 * n
    ensures forall j :: 0 <= j < 2 * n ==> PawnRanks(n)[j] == StartPiece(j)
  {
    if n > 0 {
      PawnRanksLayout(n - 1);
    }
  }

  lemma {:induction false} BackRanksLayout(n: nat)
    requires n <= 8
    ensures |BackRanks(n)| == 2 * n
    ensures forall j :: 0 <= j < 2 * n ==> BackRanks(n)[j] == StartPiece(16 + j)
  {
    if n > 0 {
      BackRanksLayout(n - 1);
    }
  }

  /** The 32 starting pieces: 16 pawns, then the back ranks, white and black alternating file by file. */
  lemma InitialLayout()
    ensures |InitialPosition()| == 32
    ensures forall j :: 0 <= j < 32 ==> InitialPosition()[j] == StartPiece(j)
  {
    PawnRanksLayout(8);
    BackRanksLayout(8);
  }

  /** No two pieces of the list share a square. */
  predicate DistinctSquares(ps: seq<BoardPiece>)
  {
    forall i, j :: 0 <= i < |ps| && 0 <= j < |ps| && i != j ==> ps[i].sq != ps[j].sq
  }

  /** Different creation indices get different squares; colours sit on their own two ranks. */
  lemma StartPieceFacts(i: nat, j: nat)
    requires i < 32 && j < 32
    ensures i != j ==> StartPiece(i).sq != StartPiece(j).sq
    ensures InBounds(StartPiece(i).sq)
    ensures StartPiece(i).color == White <==> StartPiece(i).sq.y <= 1
    ensures StartPiece(i).kind == King <==> i == 24 || i == 25
  {
  }

  /**
   * The starting position: every piece on the board, no square shared, the
   * white pieces on ranks 0 and 1 and the black ones on ranks 6 and 7, and the
   * kings on e1 and e8 and nowhere else.
   */
  lemma InitialPositionFacts()
    ensures |InitialPosition()| == 32 && DistinctSquares(InitialPosition())
    ensures forall j :: 0 <= j < 32 ==> InBounds(InitialPosition()[j].sq)
    ensures forall j :: 0 <= j < 32 ==>
      (InitialPosition()[j].color == White <==> InitialPosition()[j].sq.y <= 1)
    ensures InitialPosition()[24] == BoardPiece(King, White, Square(4, 0))
    ensures InitialPosition()[25] == BoardPiece(King, Black, Square(4, 7))
    ensures forall j :: 0 <= j < 32 && InitialPosition()[j].kind == King ==> j == 24 || j == 25
  {
    InitialLayout();
    var ps := InitialPosition();
    forall i, j | 0 <= i < 32 && 0 <= j < 32
      ensures i != j ==> ps[i].sq != ps[j].sq
    {
      StartPieceFacts(i, j);
    }
    forall j | 0 <= j < 32
      ensures InBounds(ps[j].sq) && (ps[j].color == White <==> ps[j].sq.y <= 1)
      ensures ps[j].kind == King ==> j == 24 || j == 25
    {
      StartPieceFacts(j, j);
    }
    assert StartPiece(24) == BoardPiece(King, White, Square(4, 0));
    assert StartPiece(25) == BoardPiece(King, Black, Square(4, 7));
  }

  /** GetPieceAt's search from child `i` on: the first piece standing on `sq`. */
  function FirstAt(ps: seq<BoardPiece>, sq: Square, i: nat): (r: Option<nat>)
    requires i <= |ps|
    ensures r.Some? ==> i <= r.value < |ps| && ps[r.value].sq == sq
    ensures r.Some? ==> forall j :: i <= j < r.value ==> ps[j].sq != sq
    ensures r.None? ==> forall j :: i <= j < |ps| ==> ps[j].sq != sq
    decreases |ps| - i
  {
    if i == |ps| then None
    else if ps[i].sq == sq then Some(i)
    else FirstAt(ps, sq, i + 1)
  }

  /** The result of removing the `j`-th piece. */
  function Remove(ps: seq<BoardPiece>, j: nat): seq<BoardPiece>
    requires j < |ps|
  {
    ps[..j] + ps[j + 1..]
  }

  /**
   * ApplyMove on a parsed move: when a piece stands on `from`, whatever stands
   * on `to` is destroyed and the piece is moved there; with no piece on `from`
   * nothing happens.  When `from == to` the piece found on `to` is the moving
   * piece itself, which is destroyed.
   */
  function Apply(ps: seq<BoardPiece>, m: Move): seq<BoardPiece>
  {
    match FirstAt(ps, m.from, 0)
    case None => ps
    case Some(i) =>
      var moved := ps[i := ps[i].(sq := m.to)];
      match FirstAt(ps, m.to, 0)
      case None => moved
      case Some(j) => Remove(moved, j)
  }

  /** A character `int.Parse` of a one-character string accepts. */
  predicate IsDigit(ch: char)
  {
    '0' <= ch <= '9'
  }

  /** ParseCoord: file from the letter's distance to 'a', rank from the digit minus one; a string shorter than two characters or a non-digit rank fails. */
  function ParseCoord(notation: string): (r: Option<Square>)
    ensures r.Some? <==> |notation| >= 2 && IsDigit(notation[1])
    ensures r.Some? ==> -1 <= r.value.y <= 8
  {
    if |notation| < 2 || !IsDigit(notation[1]) then None
    else Some(Square(notation[0] as int - 'a' as int, notation[1] as int - '0' as int - 1))
  }

  /** The two `Substring`s and `ParseCoord`s of ApplyMove: a string shorter than four characters fails. */
  function ParseMove(move: string): (r: Option<Move>)
    ensures r.Some? <==> |move| >= 4 && IsDigit(move[1]) && IsDigit(move[3])
  {
    if |move| < 4 then None
    else match (ParseCoord(move[0..2]), ParseCoord(move[2..4]))
      case (Some(from), Some(to)) => Some(Move(from, to))
      case _ => None
  }

  /** What ApplyMove leaves on the board: a string that does not parse changes nothing. */
  function AfterMove(ps: seq<BoardPiece>, move: string): seq<BoardPiece>
  {
    match ParseMove(move)
    case None => ps
    case Some(m) => Apply(ps, m)
  }

  // ---------------------------------------------------------------------------
  // Notation round trips

  /** ParseCoord reads back every square name, and a two-character string it reads as an on-board square is that square's name. */
  lemma ParseSquareName(sq: Square, n: string)
    requires InBounds(sq)
    ensures ParseCoord(SquareName(sq)) == Some(sq)
    ensures |n| == 2 && ParseCoord(n) == Some(sq) ==> n == SquareName(sq)
  {
    var r := SquareName(sq);
    assert r[0] == FileChar(sq.x) && r[1] == RankChar(sq.y);
    if |n| == 2 && ParseCoord(n) == Some(sq) {
      assert n[0] == r[0] && n[1] == r[1];
    }
  }

  /** A recorded move replays as the same move. */
  lemma ParseMoveNotation(from: Square, to: Square)
    requires InBounds(from) && InBounds(to)
    ensures ParseMove(MoveNotation(from, to)) == Some(Move(from, to))
  {
    var r := MoveNotation(from, to);
    ParseSquareName(from, r[0..2]);
    ParseSquareName(to, r[2..4]);
  }

  /** A promotion record whose piece type starts with a non-digit, as all accepted types do, never parses: ApplyMove throws on it. */
  lemma PromotionUnparsable(sq: Square, pieceType: string)
    requires InBounds(sq) && |pieceType| > 0 && !IsDigit(pieceType[0])
    ensures ParseMove(PromotionNotation(sq, pieceType)) == None
  {
  }

  // ---------------------------------------------------------------------------
  // ApplyMove's effect

  /** Removing a piece keeps the others, in order. */
  lemma RemoveAt(ps: seq<BoardPiece>, j: nat, k: nat)
    requires j < |ps| && k < |ps| - 1
    ensures |Remove(ps, j)| == |ps| - 1
    ensures Remove(ps, j)[k] == if k < j then ps[k] else ps[k + 1]
  {
  }

  lemma RemoveDistinct(ps: seq<BoardPiece>, j: nat)
    requires j < |ps| && DistinctSquares(ps)
    ensures DistinctSquares(Remove(ps, j))
  {
    var r := Remove(ps, j);
    forall a, b | 0 <= a < |r| && 0 <= b < |r| && a != b
      ensures r[a].sq != r[b].sq
    {
      RemoveAt(ps, j, a);
      RemoveAt(ps, j, b);
    }
  }

  /** On a board without shared squares a parsed move keeps the squares distinct, and a move from an empty square changes nothing. */
  lemma ApplyDistinct(ps: seq<BoardPiece>, m: Move)
    requires DistinctSquares(ps)
    ensures DistinctSquares(Apply(ps, m))
    ensures FirstAt(ps, m.from, 0).None? ==> Apply(ps, m) == ps
  {
    match FirstAt(ps, m.from, 0)
    case None =>
    case Some(i) =>
      var moved := ps[i := ps[i].(sq := m.to)];
      match FirstAt(ps, m.to, 0)
      case None =>
        assert DistinctSquares(moved);
      case Some(j) =>
        if i == j {
          RemoveDistinct(moved, j);
        } else {
          assert forall a :: 0 <= a < |moved| && a != j && a != i ==> moved[a].sq != m.to;
          var r := Remove(moved, j);
          forall a, b | 0 <= a < |r| && 0 <= b < |r| && a != b
            ensures r[a].sq != r[b].sq
          {
            RemoveAt(moved, j, a);
            RemoveAt(moved, j, b);
          }
        }
  }

  /**
   * With a piece on `from` and `from != to`, that piece, and only it, ends on
   * `to`, `from` is left empty, and a piece on `to` is destroyed (one piece
   * fewer); every piece standing elsewhere stays as it was, and every piece
   * of the result off `to` was already on the board.
   */
  lemma ApplyMoves(ps: seq<BoardPiece>, m: Move)
    requires DistinctSquares(ps) && FirstAt(ps, m.from, 0).Some? && m.from != m.to
    ensures var p := ps[FirstAt(ps, m.from, 0).value];
      && |Apply(ps, m)| == |ps| - (if FirstAt(ps, m.to, 0).Some? then 1 else 0)
      && FirstAt(Apply(ps, m), m.to, 0).Some?
      && Apply(ps, m)[FirstAt(Apply(ps, m), m.to, 0).value] == p.(sq := m.to)
      && FirstAt(Apply(ps, m), m.from, 0).None?
    ensures forall k :: 0 <= k < |ps| && ps[k].sq != m.from && ps[k].sq != m.to ==> ps[k] in Apply(ps, m)
    ensures forall k :: 0 <= k < |Apply(ps, m)| && Apply(ps, m)[k].sq != m.to ==> Apply(ps, m)[k] in ps
  {
    ApplyOthers(ps, m);
    ApplyDistinct(ps, m);
    var i := FirstAt(ps, m.from, 0).value;
    var moved := ps[i := ps[i].(sq := m.to)];
    match FirstAt(ps, m.to, 0)
    case None =>
      FirstAtUnique(moved, m.to, i);
      NotOnBoard(moved, m.from);
    case Some(j) =>
      var r := Remove(moved, j);
      var i' := if i < j then i else i - 1;
      RemoveAt(moved, j, i');
      FirstAtUnique(r, m.to, i');
      forall a | 0 <= a < |r|
        ensures r[a].sq != m.from
      {
        RemoveAt(moved, j, a);
      }
      NotOnBoard(r, m.from);
  }

  /** The pieces ApplyMove neither moves nor destroys are kept, and it adds none. */
  lemma ApplyOthers(ps: seq<BoardPiece>, m: Move)
    requires FirstAt(ps, m.from, 0).Some?
    ensures forall k :: 0 <= k < |ps| && ps[k].sq != m.from && ps[k].sq != m.to ==> ps[k] in Apply(ps, m)
    ensures forall k :: 0 <= k < |Apply(ps, m)| && Apply(ps, m)[k].sq != m.to ==> Apply(ps, m)[k] in ps
  {
    var i := FirstAt(ps, m.from, 0).value;
    var moved := ps[i := ps[i].(sq := m.to)];
    match FirstAt(ps, m.to, 0)
    case None =>
      forall k | 0 <= k < |ps| && ps[k].sq != m.from && ps[k].sq != m.to
        ensures ps[k] in moved
      {
        assert moved[k] == ps[k];
      }
    case Some(j) =>
      var r := Remove(moved, j);
      forall k | 0 <= k < |ps| && ps[k].sq != m.from && ps[k].sq != m.to
        ensures ps[k] in r
      {
        var k' := if k < j then k else k - 1;
        RemoveAt(moved, j, k');
      }
      forall a | 0 <= a < |r| && r[a].sq != m.to
        ensures r[a] in ps
      {
        RemoveAt(moved, j, a);
      }
  }

  /** On a board without shared squares the search finds the piece standing on the square. */
  lemma FirstAtUnique(ps: seq<BoardPiece>, sq: Square, i: nat)
    requires DistinctSquares(ps) && i < |ps| && ps[i].sq == sq
    ensures FirstAt(ps, sq, 0) == Some(i)
  {
  }

  lemma NotOnBoard(ps: seq<BoardPiece>, sq: Square)
    requires forall j :: 0 <= j < |ps| ==> ps[j].sq != sq
    ensures FirstAt(ps, sq, 0).None?
  {
  }

  // ---------------------------------------------------------------------------
  // The board object

  class ChessBoard {
    /** The children of `piecesContainer`, in creation order. */
    var pieces: seq<BoardPiece>

    /** Start: the board is built and the pieces are placed. */
    constructor ()
      ensures pieces == InitialPosition()
    {
      new;
      PlacePieces();
    }

    /** PlacePieces: a fresh container, filled with the pawns and then the back ranks. */
    method PlacePieces()
      modifies this
      ensures pieces == InitialPosition()
    {
      pieces := [];
      for i := 0 to 8
        invariant pieces == PawnRanks(i)
      {
        var wp := BoardPiece(Pawn, White, Square(i, 1));
        var bp := BoardPiece(Pawn, Black, Square(i, 6));
        pieces := pieces + [wp, bp];
      }
      var whitePieces := BackRank;
      var blackPieces := BackRank;
      for i := 0 to 8
        invariant pieces == PawnRanks(8) + BackRanks(i)
      {
        var whitePiece := BoardPiece(whitePieces[i], White, Square(i, 0));
        var blackPiece := BoardPiece(blackPieces[i], Black, Square(i, 7));
        pieces := pieces + [whitePiece, blackPiece];
      }
    }

    /** ResetBoard: every piece is destroyed and the starting position placed again. */
    method ResetBoard()
      modifies this
      ensures pieces == InitialPosition()
    {
      pieces := [];
      PlacePieces();
    }

    /** GetPieceAt: the first child standing on `boardPos`. */
    method GetPieceAt(boardPos: Square) returns (piece: Option<nat>)
      ensures piece == FirstAt(pieces, boardPos, 0)
    {
      for i := 0 to |pieces|
        invariant FirstAt(pieces, boardPos, i) == FirstAt(pieces, boardPos, 0)
      {
        if pieces[i].sq == boardPos {
          return Some(i);
        }
      }
      return None;
    }

    /** MovePiece. */
    method MovePiece(piece: nat, boardPos: Square)
      requires piece < |pieces|
      modifies this
      ensures pieces == old(pieces)[piece := old(pieces)[piece].(sq := boardPos)]
    {
      pieces := pieces[piece := pieces[piece].(sq := boardPos)];
    }

    /** Destroy, taken to take effect at once. */
    method Destroy(piece: nat)
      requires piece < |pieces|
      modifies this
      ensures pieces == Remove(old(pieces), piece)
    {
      pieces := pieces[..piece] + pieces[piece + 1..];
    }

    /**
     * ApplyMove.  `applied` is false where the source throws (a string shorter
     * than four characters, or a rank that is not a digit); the board is then
     * unchanged.  The source destroys the captured piece before moving, but
     * Unity destroys at the end of the frame, so the piece is moved first here.
     */
    method ApplyMove(move: string) returns (applied: bool)
      modifies this
      ensures applied == ParseMove(move).Some?
      ensures pieces == AfterMove(old(pieces), move)
    {
      if |move| < 4 {
        return false;
      }
      var from := ParseCoord(move[0..2]);
      var to := ParseCoord(move[2..4]);
      if from.None? || to.None? {
        return false;
      }
      var piece := GetPieceAt(from.value);
      if piece.Some? {
        var captured := GetPieceAt(to.value);
        MovePiece(piece.value, to.value);
        if captured.Some? {
          Destroy(captured.value);
        }
      }
      return true;
    }
  }
}
