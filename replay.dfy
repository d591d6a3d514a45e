/**
 * The replay screen (ReplayController.cs): a list of recorded moves, the index
 * of the last one shown (-1 before the first), and the board they are shown
 * on.  `NextMove` applies the next recorded move; `PreviousMove` steps back by
 * rebuilding the starting position and applying the moves up to the new index
 * again, a move that throws ending that loop early.
 *
 * The source never assigns the move list, so in the running program it stays
 * null and `NextMove` never advances; the operations are specified for any
 * list as well.
 */
module Replay {
  import opened Chess
  import opened Board

  /**
   * The board PreviousMove's loop leaves after applying `moves[i..n]` to `ps`:
   * the first move that does not parse throws and ends the loop.
   */
  function ReplayFrom(ps: seq<BoardPiece>, moves: seq<string>, i: nat, n: nat): seq<BoardPiece>
    requires n <= |moves|
    decreases n - i
  {
    if i >= n then ps
    else match ParseMove(moves[i])
      case None => ps
      case Some(m) => ReplayFrom(Apply(ps, m), moves, i + 1, n)
  }

  /** The starting position with the first `n` recorded moves replayed. */
  function Replayed(moves: seq<string>, n: nat): seq<BoardPiece>
    requires n <= |moves|
  {
    ReplayFrom(InitialPosition(), moves, 0, n)
  }

  /** Every one of the first `n` moves parses. */
  predicate AllParse(moves: seq<string>, n: nat)
    requires n <= |moves|
  {
    forall k :: 0 <= k < n ==> ParseMove(moves[k]).Some?
  }

  lemma {:induction false} ReplayFromSnoc(ps: seq<BoardPiece>, moves: seq<string>, i: nat, n: nat)
    requires i <= n < |moves|
    requires forall k :: i <= k < n ==> ParseMove(moves[k]).Some?
    ensures ReplayFrom(ps, moves, i, n + 1) == AfterMove(ReplayFrom(ps, moves, i, n), moves[n])
    decreases n - i
  {
    if i < n {
      var m := ParseMove(moves[i]).value;
      ReplayFromSnoc(Apply(ps, m), moves, i + 1, n);
    }
  }

  /** While every earlier move parses, replaying one move more is applying that move to the replayed board. */
  lemma ReplayedStep(moves: seq<string>, n: nat)
    requires n < |moves| && AllParse(moves, n)
    ensures Replayed(moves, n + 1) == AfterMove(Replayed(moves, n), moves[n])
  {
    ReplayFromSnoc(InitialPosition(), moves, 0, n);
  }

  lemma {:induction false} ReplayFromStops(ps: seq<BoardPiece>, moves: seq<string>, i: nat, k: nat, n: nat)
    requires i <= k < n <= |moves| && ParseMove(moves[k]).None?
    ensures ReplayFrom(ps, moves, i, n) == ReplayFrom(ps, moves, i, k)
    decreases k - i
  {
    if i < k && ParseMove(moves[i]).Some? {
      ReplayFromStops(Apply(ps, ParseMove(moves[i]).value), moves, i + 1, k, n);
    }
  }

  /** A move that does not parse (a promotion record, say) hides every later move from PreviousMove. */
  lemma ReplayedStops(moves: seq<string>, k: nat, n: nat)
    requires k < n <= |moves| && ParseMove(moves[k]).None?
    ensures Replayed(moves, n) == Replayed(moves, k)
  {
    ReplayFromStops(InitialPosition(), moves, 0, k, n);
  }

  class ReplayController {
    var moves: Option<seq<string>>
    var currentMoveIndex: int
    const chessBoard: ChessBoard

    /** The index is -1 without a list, and otherwise at most the last index of the list. */
    predicate Valid()
      reads this
    {
      match moves
      case None => currentMoveIndex == -1
      case Some(ms) => -1 <= currentMoveIndex < |ms|
    }

    /** The board shows the starting position with the moves up to the current index replayed. */
    predicate Synced()
      reads this, chessBoard
      requires Valid()
    {
      moves.Some? ==> chessBoard.pieces == Replayed(moves.value, currentMoveIndex + 1)
    }

    /** The field initialisers, with the board found by `FindObjectOfType`. */
    constructor (board: ChessBoard)
      ensures moves == None && currentMoveIndex == -1 && chessBoard == board
      ensures Valid()
    {
      moves := None;
      currentMoveIndex := -1;
      chessBoard := board;
    }

    /** Start: when a replay was requested the pieces are placed again. */
    method Start(replaying: bool)
      modifies chessBoard
      ensures replaying ==> chessBoard.pieces == InitialPosition()
      ensures !replaying ==> chessBoard.pieces == old(chessBoard.pieces)
    {
      if replaying {
        chessBoard.PlacePieces();
      }
    }

    /** NextMove: without a list or at the last move nothing happens; otherwise the index advances and that move is applied. */
    method NextMove()
      requires Valid()
      modifies this, chessBoard
      ensures Valid() && moves == old(moves)
      ensures old(moves).None? || old(currentMoveIndex) + 1 >= |old(moves).value| ==>
        currentMoveIndex == old(currentMoveIndex) && chessBoard.pieces == old(chessBoard.pieces)
      ensures old(moves).Some? && old(currentMoveIndex) + 1 < |old(moves).value| ==>
        && currentMoveIndex == old(currentMoveIndex) + 1
        && chessBoard.pieces == AfterMove(old(chessBoard.pieces), moves.value[currentMoveIndex])
    {
      if moves.None? || currentMoveIndex + 1 >= |moves.value| {
        return;
      }
      currentMoveIndex := currentMoveIndex + 1;
      var move := moves.value[currentMoveIndex];
      var _ := chessBoard.ApplyMove(move);
    }

    /** PreviousMove: before the first move nothing happens; otherwise the index steps back and the board is rebuilt up to it. */
    method PreviousMove()
      requires Valid()
      modifies this, chessBoard
      ensures Valid() && moves == old(moves)
      ensures old(currentMoveIndex) < 0 ==>
        currentMoveIndex == old(currentMoveIndex) && chessBoard.pieces == old(chessBoard.pieces)
      ensures old(currentMoveIndex) >= 0 ==>
        currentMoveIndex == old(currentMoveIndex) - 1 && Synced()
    {
      if currentMoveIndex < 0 {
        return;
      }
      currentMoveIndex := currentMoveIndex - 1;
      chessBoard.ResetBoard();
      var ms := moves.value;
      var n := currentMoveIndex + 1;
      ghost var goal := Replayed(ms, n);
      for i := 0 to n
        invariant moves == old(moves) && currentMoveIndex == old(currentMoveIndex) - 1
        invariant ReplayFrom(chessBoard.pieces, ms, i, n) == goal
      {
        ghost var before := chessBoard.pieces;
        var applied := chessBoard.ApplyMove(ms[i]);
        ReplayFromStep(before, ms, i, n);
        if !applied {
          break;
        }
      }
    }
  }

  /** One iteration of PreviousMove's loop: a move that parses is applied and the loop goes on, one that does not ends it. */
  lemma ReplayFromStep(ps: seq<BoardPiece>, moves: seq<string>, i: nat, n: nat)
    requires i < n <= |moves|
    ensures ParseMove(moves[i]).None? ==> ReplayFrom(ps, moves, i, n) == ps
    ensures ParseMove(moves[i]).Some? ==> ReplayFrom(ps, moves, i, n) == ReplayFrom(AfterMove(ps, moves[i]), moves, i + 1, n)
  {
  }

  /** From a synced board, a move that parses after moves that all parsed keeps the board synced when NextMove applies it. */
  lemma NextMoveKeepsSync(moves: seq<string>, index: int, board: seq<BoardPiece>)
    requires -1 <= index && index + 1 < |moves| && AllParse(moves, index + 1)
    requires board == Replayed(moves, index + 1)
    ensures AfterMove(board, moves[index + 1]) == Replayed(moves, index + 2)
  {
    ReplayedStep(moves, index + 1);
  }
}
