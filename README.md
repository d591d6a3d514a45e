# ChessGameGit: a verified Dafny model of the game controllers, board and replay

This project models the core of the Unity chess game ChessGameGit and proves
what its rules guarantee. The core is four C# scripts:

- `finall.cs` (class `final`): the check-aware controller. It shows a check
  message, selects pieces and highlights their moves, and filters the king's
  steps by the squares the enemy attacks. It makes captures (taking a king ends
  the game), moves onto highlighted squares with castling, and handles pawn
  promotion. It also writes moves to the game log.
- `ChessPieceMover.cs` (class `ChessPieceMovementController`): the older
  controller. It generates the same moves, but its king steps are not filtered.
  It has no check message, no king-capture detection and no log, and its
  promotion is a stub.
- `ChessBoard.cs`: the replay board. It sets up the starting position, parses
  a square name, finds the piece on a square and applies a four-character
  move.
- `ReplayController.cs`: the replay cursor. It steps forward and backward
  through a list of moves.

## How the model is built

A position is a `Scene`: a sequence of pieces indexed by piece id. Every piece
has a kind, a colour, a square and an `active` flag. The C# scripts infer kind
and colour from object names; here they are fields of the piece.

In the controllers, `SetActive(false)` and `Destroy` (a captured piece, a
promoted pawn) both clear `active`, so ids stay stable. Every query the
controllers make sees only active pieces, as Unity's tag and collider lookups
do. The piece "at a square" is the first active piece standing on it
(`Chess.PieceAt`); the invariant keeps active pieces on distinct squares, which
makes that piece unique.

The modules are:

- `Chess`: pieces, squares and the piece lookup.
- `Notation`: `GenerateMoveNotation` and the promotion string.
- `MoveGen`: the move generators `Show*Moves`, shared by both controllers. A
  flag chooses whether the king's steps are filtered by `IsUnderAttack`. Each
  generator is a method with the source's loops, proved equal to a
  specification function.
- `MoveGenFacts`: soundness lemmas about the generators.
- `AttackMap`: `GetPieceAttackMoves`, `IsUnderAttack`, `FindKing` and
  `IsKingInCheck`, as methods proved against functions.
- `Controls`: the state both controllers keep, `Core`. It covers selection,
  the board side of captures and moves (with the rook's part of castling), and
  the invariant `CoreValid`.
- `Final`: the rules of `final` as functions over a `Game` state, with
  lemmas.
- `FinalController`: class `FinalBehaviour`, the fields of `final` updated in
  place. Each method is proved to have the effect module `Final` gives it.
- `Mover`: the rules of `ChessPieceMovementController` as functions, with
  lemmas.
- `MoverController`: class `MovementController`, its fields updated in place.
- `Board`: class `ChessBoard`, its `pieces` container updated in place, and
  `ParseCoord`.
- `Replay`: class `ReplayController` and the replay specification
  `Replayed`.

A mouse click is an abstract `Click`. It is nothing, a piece (the collider hit
by the raycast) or a board square.

Some values the code reads from outside the model become parameters:

- the ids read from `PlayerPrefs` and whether the promotion panel is assigned
  are a `Setup` value;
- the calls into `DatabaseManager` are appended to an abstract `records` log;
- the texts the check panel is asked to show are a `notices` log.

### Where the code departs from standard chess

The model follows the code as written; the lemmas named below state what the
code actually does.

- **Queenside castling.** The king's queenside target is three files away (b1
  or b8), not two. The rook is moved only for a two-file king move, so a
  queenside castle moves the king alone (`Controls.QueensideMovesKingOnly`,
  `MoveGenFacts.CastlingFromE`).
- **Attacked castling squares.** Castling targets are not filtered by attacks,
  even in the check-aware controller (`Mover.UnfilteredKing` states where the
  filter applies).
- **Promotion in `ChessPieceMover.cs`.** Any pawn reaching rank 0 or rank 7,
  of either colour, calls the promotion stub, which changes nothing.
- **End of the game.** The game ends when a king is captured through
  `CapturePiece`; there is no checkmate test. A king taken by `TryMovePiece`,
  a move onto its square rather than a click on the king itself, goes
  unnoticed (`Final.KingTakenByMoveGoesUnnoticed`).

## Model

| member | source | states |
|---|---|---|
| Chess.PieceAtFirst | Assets/Scripts/finall.cs:712-726 | the piece found on a square is the first active piece standing there, and none is found exactly when no active piece stands there |
| Chess.PieceAtUnique | Assets/Scripts/finall.cs:712-726 | when active pieces stand on distinct squares, the lookup finds a piece exactly when that piece stands on the square |
| Notation.MoveNotation | Assets/Scripts/finall.cs:121-129 | a move is written as four characters: the name of the from-square, then the name of the to-square, each a file letter a-h and a rank digit 1-8 |
| Notation.SquareNameInjective | Assets/Scripts/finall.cs:121-129 | two board squares have the same name exactly when they are the same square |
| Notation.PromotionNotation | Assets/Scripts/finall.cs:965-972 | a promotion is written as the square's name, '=' and the first character of the piece name |
| Final.PromotionKind | Assets/Scripts/finall.cs:932-949 | a piece name is recognised only if it has at least four letters, and it never stands for a king or a pawn |
| Final.PromotionLetter | Assets/Scripts/finall.cs:965-972 | the first character of every recognised promotion name is not a digit |
| AttackMap.AddDiagonalMoves | Assets/Scripts/finall.cs:257-275 | the four diagonal rays are appended to the attack list in the source's order; which squares that is, is DiagonalAttacksExactly |
| AttackMap.DiagonalRayExactly | Assets/Scripts/finall.cs:264-272 | a diagonal ray lists a square exactly when it is on the board at distance at most 7 and every square before it is free: the ray runs to the edge when nothing is in the way and includes its first occupied square, of either colour |
| AttackMap.DiagonalAttacksExactly | Assets/Scripts/finall.cs:257-275 | a square is in the diagonal attack list exactly when some diagonal direction reaches it that way |
| AttackMap.DiagonalRayStops | Assets/Scripts/finall.cs:257-275 | every square of a diagonal ray is on the board, and only its last square can be occupied |
| AttackMap.AddStraightMoves | Assets/Scripts/finall.cs:277-298 | the horizontal and vertical squares are appended as the single shared loop produces them; which squares that is, is StraightAttacksExactly |
| AttackMap.StraightRayExactly | Assets/Scripts/finall.cs:282-295 | the shared loop lists a square exactly when, with both lines free at every smaller distance, it is the on-board horizontal square at its distance, or the vertical one there while the horizontal square does not block: a blocker on one line also ends the other |
| AttackMap.StraightAttacksExactly | Assets/Scripts/finall.cs:277-298 | a square is in the straight attack list exactly when the shared loop for one of the signs -1, 1 reaches it that way |
| AttackMap.SharedStraightLoopMissesCheck | Assets/Scripts/finall.cs:277-298 | with a white rook on a1, a white knight on b1 and the black king on a2, the rook's attack list is only b1, so the black king is not in check |
| AttackMap.AddKnightAttacks | Assets/Scripts/finall.cs:221-229 | the eight knight jumps are appended in the source's order, on or off the board |
| AttackMap.KnightAttacksShape | Assets/Scripts/finall.cs:221-229 | every square in a knight's attack list is one knight's jump from the knight: one square along one axis and two along the other |
| AttackMap.AddKingAttacks | Assets/Scripts/finall.cs:243-253 | the king's two nested loops are appended column by column |
| AttackMap.KingAttacksExactly | Assets/Scripts/finall.cs:243-253 | the king's attack list holds exactly the eight squares around it, its own square excluded, with no bounds check |
| AttackMap.GetPieceAttackMoves | Assets/Scripts/finall.cs:207-256 | the attack list of a piece is its kind's pattern: a pawn's two forward diagonals, knight jumps, rays, or king steps |
| AttackMap.AttacksSquare | Assets/Scripts/finall.cs:191-206 | a piece attacks a square exactly when it is an active enemy piece whose attack list contains that square |
| AttackMap.IsUnderAttack | Assets/Scripts/finall.cs:191-206 | the loop returns true exactly when some piece of the scene attacks the square |
| AttackMap.UnderAttackExists | Assets/Scripts/finall.cs:191-206 | a square is under attack exactly when some piece, active and of the other colour, has it in its attack list |
| AttackMap.FindKing | Assets/Scripts/finall.cs:178-189 | the search returns the first active king of the colour, and returns none only when that colour has no active king |
| AttackMap.IsKingInCheck | Assets/Scripts/finall.cs:166-175 | without an active king there is no check; otherwise a side is in check exactly when some enemy piece attacks its king's square |
| MoveGen.ShowValidMoves | Assets/Scripts/finall.cs:362-390 | the highlights of the selected piece are those of its kind's generator, and the capture map is built from them |
| MoveGen.AddRay | Assets/Scripts/finall.cs:393-436 | one direction's loop appends the ray of that direction and records the capture on it |
| MoveGen.AddRays | Assets/Scripts/finall.cs:393-566 | rook, bishop and queen append their rays direction by direction, and the capture map matches the highlights |
| MoveGen.ShowKnightMoves | Assets/Scripts/finall.cs:438-472 | the knight's highlights are its on-board jumps onto empty or enemy squares, in jump order |
| MoveGen.AddKingSteps | Assets/Scripts/finall.cs:587-609 | the king's highlights are its on-board steps onto empty or enemy squares, kept only where the safety filter allows |
| MoveGen.IsPathClear | Assets/Scripts/finall.cs:624-652 | the path check is true exactly when every square between the king and the corner is empty |
| MoveGen.CheckCastlingSide | Assets/Scripts/finall.cs:624-652 | a castling highlight is appended exactly when that side's castling is allowed |
| MoveGen.ShowKingMoves | Assets/Scripts/finall.cs:568-615 | the king offers its steps first, then castling only while it is unmoved |
| MoveGen.CheckAndHighlightCapture | Assets/Scripts/finall.cs:683-695 | a pawn's diagonal square is offered, as a capture, only when an enemy piece stands on it |
| MoveGen.ShowPawnMoves | Assets/Scripts/finall.cs:654-680 | the pawn's highlights are its forward pushes followed by its two capture diagonals |
| MoveGenFacts.TargetSpec | Assets/Scripts/finall.cs:393-436 | a square is offered as a plain move exactly when it is empty, and as a capture exactly when an enemy piece stands on it; a square holding an own piece is never offered |
| MoveGenFacts.RaySound | Assets/Scripts/finall.cs:393-436 | every highlight of a ray is on the board, and its capture flag says whether an enemy stands there |
| MoveGenFacts.RayRun | Assets/Scripts/finall.cs:393-436 | a ray's highlights are consecutive squares in its direction, and every square before the last one is empty |
| MoveGenFacts.RayStop | Assets/Scripts/finall.cs:393-436 | a ray that does not end with a capture ends at the edge of the board, after seven squares, or in front of an own piece |
| MoveGenFacts.RaysSound | Assets/Scripts/ChessPieceMover.cs:163-355 | every rook, bishop and queen highlight is on the board, and is a capture exactly when it takes an enemy |
| MoveGenFacts.JumpsSpec | Assets/Scripts/finall.cs:438-472 | a knight highlight is exactly one of its jumps that lands on the board on an empty or enemy square |
| MoveGenFacts.JumpsSound | Assets/Scripts/ChessPieceMover.cs:213-251 | every knight highlight of the older controller, which uses the same generator, is on the board, a plain move onto an empty square or a capture of an enemy |
| MoveGenFacts.StepsSpec | Assets/Scripts/finall.cs:587-609 | a king-step highlight is exactly one of its steps that lands on the board, on an empty or enemy square, and passes the safety filter |
| MoveGenFacts.StepsSound | Assets/Scripts/ChessPieceMover.cs:357-405 | every king step, filtered or not, is on the board and either a plain move onto an empty square or a capture of an enemy |
| MoveGenFacts.AwareStepsSafe | Assets/Scripts/finall.cs:587-609 | the check-aware king offers a step exactly when the unfiltered king does and that square is not under attack |
| Mover.UnfilteredKing | Assets/Scripts/ChessPieceMover.cs:357-405 | the older king is not filtered: the check-aware king offers a highlight exactly when the older one does and the square is unattacked, or the highlight is castling |
| MoveGenFacts.CastlingFromE | Assets/Scripts/finall.cs:617-652 | from file e, kingside castling needs an unmoved own rook on h (with a `hasMoved` entry) and f and g empty, and targets g; queenside needs the same rook on a and b, c, d empty, but targets b |
| MoveGenFacts.PawnMovesShape | Assets/Scripts/finall.cs:654-695 | a pawn captures only one rank forward on an adjacent file; it moves one rank forward, or two when unmoved and the square in between is empty |
| MoveGenFacts.PawnMovesSound | Assets/Scripts/finall.cs:654-695 | every pawn highlight is on the board and is a capture exactly when it takes an enemy |
| MoveGenFacts.PawnPushesSound | Assets/Scripts/ChessPieceMover.cs:451-479 | the pawn pushes of both controllers go only onto empty squares of the board |
| MoveGenFacts.PawnCaptureSound | Assets/Scripts/ChessPieceMover.cs:481-502 | a pawn diagonal is offered only as a capture of an enemy piece on the board |
| MoveGenFacts.HighlightsSound | Assets/Scripts/finall.cs:362-390 | for any piece on the board, every highlight is on the board, never on an own piece, and a capture exactly when it takes an enemy |
| MoveGenFacts.HighlightsLeaveSquare | Assets/Scripts/finall.cs:362-390 | no highlight stands on the selected piece's own square |
| MoveGenFacts.CaptureMapSpec | Assets/Scripts/finall.cs:683-695 | a piece is in the capture map exactly when a capture highlight stands on its square, and the map gives that square |
| MoveGenFacts.CaptureMapEnemy | Assets/Scripts/ChessPieceMover.cs:535-545 | every piece in the capture map of sound highlights is an active enemy piece on the recorded square |
| Controls.Deselect | Assets/Scripts/finall.cs:350-360 | deselecting drops the selection, the highlights and the capture map, and keeps the board, `hasMoved` and the turn |
| Controls.SelectValid | Assets/Scripts/finall.cs:332-348 | selecting an active piece of the side to move keeps the invariant |
| Controls.SelectionSound | Assets/Scripts/finall.cs:362-390 | under the invariant, the current highlights are sound for the side to move and none is on the selected piece's square |
| Controls.DeselectValid | Assets/Scripts/finall.cs:350-360 | deselecting keeps the invariant, whichever side is to move next |
| Controls.MoveTo | Assets/Scripts/finall.cs:859-864 | moving a piece changes only that piece's square; its kind, colour and active flag stay |
| Controls.Deactivate | Assets/Scripts/finall.cs:844-848 | taking a piece out clears only its active flag; its kind, colour and square stay |
| Controls.FindMarker | Assets/Scripts/finall.cs:828-876 | the search over the markers finds one exactly when a highlight stands on the clicked square |
| Controls.CaptureBoardValid | Assets/Scripts/finall.cs:778-796 | capturing a piece from the capture map takes out an enemy that is not the mover; the mover ends on its square and the board stays valid |
| Controls.MoveBoardValid | Assets/Scripts/finall.cs:819-864 | a move onto a highlighted square leaves the mover as the piece on that square, marks it moved, and keeps the board valid |
| Controls.MoveBoardKeepsPiece | Assets/Scripts/finall.cs:859-864 | a move keeps the mover's kind and colour and the number of pieces |
| Controls.TwoFilesIsKingside | Assets/Scripts/finall.cs:850-857 | a highlighted two-file move of an unmoved king is always the kingside castle from file e to file g, with the rook ready and f and g empty |
| Controls.CastleRook | Assets/Scripts/finall.cs:881-897 | in a kingside castle the rook from h goes to f and is marked moved, the king stays on e, and g is left for the king |
| Controls.QueensideMovesKingOnly | Assets/Scripts/finall.cs:850-857 | the queenside castle highlight is three files from the king, so that move only moves the king to b and the rook stays on a |
| Final.SecondCheckBlockIdle | Assets/Scripts/finall.cs:77-85 | the second check-message block never changes anything after the first |
| Final.CheckMessage | Assets/Scripts/finall.cs:57-85 | after a frame outside promotion, the check flag equals whether the side to move is in check, a check notice is shown exactly when the flag goes from false to true, and any later notice of the frame is a defeat |
| Final.PromotionBlocksUpdate | Assets/Scripts/finall.cs:62-65 | while a promotion waits for its piece, a frame changes nothing, whatever the click |
| Final.ClickKeepsNotices | Assets/Scripts/finall.cs:87-119 | handling a click keeps the check flag and the notices shown so far, and every notice it adds is a defeat |
| Final.CaptureNotices | Assets/Scripts/finall.cs:797-807 | a capture adds a defeat notice for the captured side exactly when the captured piece is a king |
| Final.KingCaptureEndsGame | Assets/Scripts/finall.cs:778-807 | taking the king puts the mover on the target and marks it as moved, takes the king out, logs the move and the end of the game and announces the defeat of its side; the turn does not pass |
| Final.CapturePassesTurn | Assets/Scripts/finall.cs:778-817 | any other capture puts the mover on the target and marks it as moved, takes the enemy out and logs the move; a pawn reaching its last rank starts the promotion (when the panel exists) and keeps the turn, otherwise the turn passes |
| Final.CaptureValid | Assets/Scripts/finall.cs:778-817 | a capture keeps the game invariant |
| Final.TryMoveTurn | Assets/Scripts/finall.cs:819-879 | a click on a square drops the selection; without a highlight there nothing else changes; with one, the mover stands there and is marked as moved, the move is logged, and the promotion starts or the turn passes |
| Final.KingTakenByMoveGoesUnnoticed | Assets/Scripts/finall.cs:844-848 | a king taken by a move onto its square (rather than a click on it) is taken out with no defeat notice, and the turn passes |
| Final.TryMoveValid | Assets/Scripts/finall.cs:819-879 | a click on a square keeps the game invariant |
| Final.PlacePromoted | Assets/Scripts/finall.cs:951-975 | the new piece is the one standing on the promotion square once the pawn is taken out, and the board stays valid |
| Final.PromoteToEffect | Assets/Scripts/finall.cs:922-983 | a pending promotion always ends and passes the turn once; a recognised name replaces the pawn with a new piece of its colour and logs the letter, an unknown name leaves the board and log alone |
| Final.PromoteToValid | Assets/Scripts/finall.cs:922-983 | promotion keeps the game invariant |
| Final.ClickValid | Assets/Scripts/finall.cs:87-119 | the click dispatch keeps the game invariant outside promotion |
| Final.UpdateValid | Assets/Scripts/finall.cs:57-120 | every frame keeps the game invariant |
| Final.InitialGameValid | Assets/Scripts/finall.cs:14-20 | the initial fields (White to move, nothing selected, no `hasMoved` entries) over the 32 starting pieces meet the game invariant, with the kings on e1 and e8 |
| Final.RecordsReplay | Assets/Scripts/finall.cs:131-145 | every logged move parses back on the replay board to the same squares, while every logged promotion string is rejected by the replay parser |
| FinalController.FinalBehaviour.constructor | Assets/Scripts/finall.cs:14-56 | a new controller starts from the initial game state and is valid |
| FinalController.FinalBehaviour.DeselectPiece | Assets/Scripts/finall.cs:350-360 | the selection, markers and capture map are cleared, and nothing else changes |
| FinalController.FinalBehaviour.SelectPiece | Assets/Scripts/finall.cs:332-348 | the fields become the selection of the piece with its check-aware highlights |
| FinalController.FinalBehaviour.RecordMove | Assets/Scripts/finall.cs:131-145 | the move is appended to the log unless a replay runs or no game id is known |
| FinalController.FinalBehaviour.HandleCastling | Assets/Scripts/finall.cs:881-897 | the rook in the corner on the king's side goes next to the king's target and is marked moved; without a rook nothing changes |
| FinalController.FinalBehaviour.StartPromotion | Assets/Scripts/finall.cs:906-920 | with a promotion panel the promotion becomes pending for this pawn and square; without one the turn passes |
| FinalController.FinalBehaviour.CaptureOnBoard | Assets/Scripts/finall.cs:778-796 | the board part of a capture: the mover takes the enemy's square and is marked moved, and the enemy is taken out |
| FinalController.FinalBehaviour.FinishCapture | Assets/Scripts/finall.cs:797-817 | after the board part, a king ends the game, a pawn on its last rank starts the promotion, anything else passes the turn |
| FinalController.FinalBehaviour.CapturePiece | Assets/Scripts/finall.cs:778-817 | the fields change as the capture rule of module Final says |
| FinalController.FinalBehaviour.MoveOnBoard | Assets/Scripts/finall.cs:844-864 | the board part of a move: a piece on the target is taken out, the rook joins a kingside castle, and the mover goes to the target and is marked moved |
| FinalController.FinalBehaviour.MoveSelected | Assets/Scripts/finall.cs:859-873 | a move onto a highlight is logged, then the promotion starts or the turn passes |
| FinalController.FinalBehaviour.TryMovePiece | Assets/Scripts/finall.cs:819-879 | the loop over the markers makes the move exactly as the rule of module Final says, and the selection is dropped |
| FinalController.FinalBehaviour.ReplacePawn | Assets/Scripts/finall.cs:951-975 | a recognised name puts the new piece on the promotion square, takes the pawn out and logs the promotion |
| FinalController.FinalBehaviour.PromoteTo | Assets/Scripts/finall.cs:922-983 | the fields change as the promotion rule of module Final says, and the invariant is kept |
| FinalController.FinalBehaviour.ShowCheckFirst | Assets/Scripts/finall.cs:67-75 | the first check block shows the notice when check appears and clears the flag when it ends |
| FinalController.FinalBehaviour.ShowCheckSecond | Assets/Scripts/finall.cs:77-85 | the second check block does the same under its own conditions |
| FinalController.FinalBehaviour.Update | Assets/Scripts/finall.cs:57-120 | one frame changes the fields as the frame rule of module Final says, and the invariant is kept |
| Mover.CapturePassesTurn | Assets/Scripts/ChessPieceMover.cs:602-616 | a capture in the older controller always passes the turn to the captured side, even when a king is taken; the mover stands on the target and is marked as moved, the enemy is out, and the invariant is kept |
| Mover.TryMoveTurn | Assets/Scripts/ChessPieceMover.cs:618-674 | a click on a square passes the turn exactly when it matches a highlight; then the mover, of the same kind and colour (a pawn stays a pawn), is the piece on the square; otherwise only the selection is dropped |
| Mover.ClickPieceRules | Assets/Scripts/ChessPieceMover.cs:37-58 | clicking an enemy that is not in the capture map changes nothing, and clicking the selected own piece only deselects it |
| Mover.UpdateValid | Assets/Scripts/ChessPieceMover.cs:28-67 | every frame of the older controller keeps the invariant |
| MoverController.MovementController.constructor | Assets/Scripts/ChessPieceMover.cs:12-26 | the controller starts with nothing selected, no `hasMoved` or capture entries, White to move, and is valid on a valid scene |
| MoverController.MovementController.DeselectPiece | Assets/Scripts/ChessPieceMover.cs:120-131 | the selection, markers and capture map are cleared, and nothing else changes |
| MoverController.MovementController.SelectPiece | Assets/Scripts/ChessPieceMover.cs:99-118 | the fields become the selection of the piece with its unfiltered highlights |
| MoverController.MovementController.CapturePiece | Assets/Scripts/ChessPieceMover.cs:602-616 | the fields change as the capture rule of module Mover says |
| MoverController.MovementController.HandleCastling | Assets/Scripts/ChessPieceMover.cs:676-696 | the rook in the corner on the king's side goes next to the king's target and is marked moved; without a rook nothing changes |
| MoverController.MovementController.ClearForMove | Assets/Scripts/ChessPieceMover.cs:636-654 | the matched highlight's body: another piece on the target is taken out, and a two-file move of an unmoved king moves the rook |
| MoverController.MovementController.TryMovePiece | Assets/Scripts/ChessPieceMover.cs:618-674 | the loop over the markers makes the move exactly as the rule of module Mover says, and the selection is dropped |
| MoverController.MovementController.Update | Assets/Scripts/ChessPieceMover.cs:28-67 | one frame changes the fields as the frame rule of module Mover says, and the invariant is kept |
| Board.ParseCoord | Assets/Scripts/ChessBoard.cs:40-45 | a coordinate parses exactly when it has at least two characters and the second is a digit |
| Board.ParseSquareName | Assets/Scripts/ChessBoard.cs:40-45 | parsing inverts the square names of the game log, and a two-character name parsing to a square is that square's name |
| Board.ParseMove | Assets/Scripts/ChessBoard.cs:66-77 | a move string parses exactly when it has at least four characters and the second and fourth are digits |
| Board.ParseMoveNotation | Assets/Scripts/ChessBoard.cs:66-77 | every logged move string parses back to its from- and to-squares |
| Board.PromotionUnparsable | Assets/Scripts/ChessBoard.cs:40-45 | a promotion string, whose fourth character is a piece letter, does not parse as a move |
| Board.FirstAt | Assets/Scripts/ChessBoard.cs:46-55 | the search returns the first piece on the square, and none only when no piece stands there |
| Board.ApplyDistinct | Assets/Scripts/ChessBoard.cs:66-77 | applying a move keeps pieces on distinct squares, and a move from an empty square changes nothing |
| Board.ApplyMoves | Assets/Scripts/ChessBoard.cs:66-77 | a move from an occupied square removes any piece on the target, whatever its colour; the mover is the piece on the target, the from-square is empty, every piece standing elsewhere is kept, and no other piece appears |
| Board.StartPieceFacts | Assets/Scripts/ChessBoard.cs:141-177 | the starting pieces stand on distinct board squares, White's on ranks 1 and 2, and only pieces 24 and 25 are kings |
| Board.InitialPositionFacts | Assets/Scripts/ChessBoard.cs:141-177 | the starting position has 32 pieces on distinct squares, with one king per colour on file e |
| Board.ChessBoard.constructor | Assets/Scripts/ChessBoard.cs:33-39 | a new board holds the starting position |
| Board.ChessBoard.PlacePieces | Assets/Scripts/ChessBoard.cs:141-177 | the pawns and back ranks are placed in the starting position |
| Board.ChessBoard.ResetBoard | Assets/Scripts/ChessBoard.cs:78-85 | whatever the board held before, it then holds the starting position |
| Board.ChessBoard.GetPieceAt | Assets/Scripts/ChessBoard.cs:46-55 | the loop returns the first piece on the square, or none |
| Board.ChessBoard.MovePiece | Assets/Scripts/ChessBoard.cs:86-93 | only the moved piece's square changes |
| Board.ChessBoard.Destroy | Assets/Scripts/ChessBoard.cs:66-77 | the destroyed piece leaves the container and the others keep their order |
| Board.ChessBoard.ApplyMove | Assets/Scripts/ChessBoard.cs:66-77 | a move is applied exactly when the string parses, and the board becomes the specified result of the move |
| Replay.ReplayController.constructor | Assets/Scripts/ReplayController.cs:13-16 | a new cursor has no move list and index -1 |
| Replay.ReplayController.Start | Assets/Scripts/ReplayController.cs:18-33 | during a replay the board is reset to the starting position, and otherwise it is left alone |
| Replay.ReplayController.NextMove | Assets/Scripts/ReplayController.cs:35-43 | without a list or at its end nothing changes; otherwise the index goes up by one, the board applies exactly that move, and the index stays within -1 and the last index |
| Replay.ReplayController.PreviousMove | Assets/Scripts/ReplayController.cs:45-56 | at index -1 nothing changes; otherwise the index goes down by one and the board is the starting position with the moves up to the new index replayed in order |
| Replay.ReplayedStep | Assets/Scripts/ReplayController.cs:35-43 | replaying one more parseable move is applying it to the replayed board |
| Replay.ReplayedStops | Assets/Scripts/ReplayController.cs:45-56 | an unparseable move in the list, such as a promotion string, ends the replay: later moves are not applied |
| Replay.NextMoveKeepsSync | Assets/Scripts/ReplayController.cs:35-56 | on a board showing the moves up to the index, stepping forward shows the moves up to the next index |

## Left out

- Rendering and the interface: highlight sprites and their colours, the
  selected piece's tint, the board and coordinate graphics of `ChessBoard.cs`
  (`GenerateBoard`, `GenerateCoordinates`, `CreateText`), the check and
  defeat panels (only the notice shown is kept), `CloseCheckMessage` and the
  return to the main menu. None of these decides a rule.
- World coordinates and physics: the float board offset, `Mathf.RoundToInt`,
  the camera and the raycast or `OverlapCircle` lookups are replaced by
  integer squares and abstract clicks. A click on a piece names its id; a
  stale or inactive id is ignored, as the collider lookup would not find it.
- Kind and colour inferred from object names (`IsPawn`, `IsWhitePiece` and
  the like) are replaced by fields of the piece.
- Final.Lower: `ToLower` is modelled on the ASCII letters only, because the
  accepted names are ASCII and culture-specific case rules are out of scope.
- The prefabs of `final` are assumed assigned; only the promotion panel is
  optional (`Setup.promotionUI`).
- `DatabaseManager.cs` and `MainMenu.cs` are not part of this model. Database,
  file and SQL access is replaced by the abstract `records` log, and
  `PlayerPrefs` by the `Setup` value.
- Unity's `Destroy` takes effect at the end of the frame. The model applies it
  at once: in the controllers it clears `active`, and on the replay board it
  removes the piece from the container. This matters only for lookups in the
  same frame, in `ApplyMove`'s capture and `PreviousMove`'s replay loop.
- The defeat notice is modelled, but nothing after it: the running game is
  not stopped, as in the code, and the scene change is not modelled.
- MoverController.MovementController.PromotePawn: it has no contract, because
  the code only writes a line to Unity's debug log and changes no state.
- Replay.ReplayController: `moves` is never assigned in `ReplayController.cs`.
  It is modelled as an optional list, so as written it is absent and
  `NextMove` does nothing. No routine in the model loads a list either.
- MoverController.MovementController.constructor: it takes the scene's pieces
  as a parameter, and is valid only when that scene is; the older controller
  finds its pieces in the Unity scene.
- Concurrency and frame timing are not modelled: one `Update` call is one
  frame with at most one click.
