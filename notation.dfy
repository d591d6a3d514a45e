/**
 * The move notation the check-aware controller records (GenerateMoveNotation
 * and the promotion record of PromoteTo in finall.cs): a file letter 'a'..'h'
 * followed by a rank digit '1'..'8' per square.
 */
module Notation {
  import opened Chess

  /** The file letter of file `x`. */
  function FileChar(x: int): (r: char)
    requires 0 <= x <= 7
    ensures 'a' <= r <= 'h' && r as int - 'a' as int == x
  {
    (('a' as int) + x) as char
  }

  /** The rank `y + 1` written as one decimal digit. */
  function RankChar(y: int): (r: char)
    requires 0 <= y <= 7
    ensures '1' <= r <= '8' && r as int - '0' as int - 1 == y
  {
    (('1' as int) + y) as char
  }

  /** The name of an on-board square, such as "e2". */
  function SquareName(sq: Square): (r: string)
    requires InBounds(sq)
    ensures |r| == 2 && 'a' <= r[0] <= 'h' && '1' <= r[1] <= '8'
  {
    [FileChar(sq.x), RankChar(sq.y)]
  }

  /** GenerateMoveNotation: the names of both squares, such as "e2e4". */
  function MoveNotation(from: Square, to: Square): (r: string)
    requires InBounds(from) && InBounds(to)
    ensures |r| == 4 && r[..2] == SquareName(from) && r[2..] == SquareName(to)
  {
    SquareName(from) + SquareName(to)
  }

  /** The promotion record: the promotion square, '=', and the first character of the requested piece type, such as "e8=q". */
  function PromotionNotation(sq: Square, pieceType: string): (r: string)
    requires InBounds(sq) && |pieceType| > 0
    ensures |r| == 4 && r[..2] == SquareName(sq) && r[2] == '=' && r[3] == pieceType[0]
  {
    SquareName(sq) + ['=', pieceType[0]]
  }

  /** Different squares get different names. */
  lemma SquareNameInjective(a: Square, b: Square)
    requires InBounds(a) && InBounds(b)
    ensures SquareName(a) == SquareName(b) <==> a == b
  {
    if SquareName(a) == SquareName(b) {
      assert FileChar(a.x) == FileChar(b.x) && RankChar(a.y) == RankChar(b.y);
    }
  }
}
