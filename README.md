# Verified models of a PeerJS relay, an IMEI check-digit tool, Gomoku and Xiangqi

This Dafny project models four sequential cores of a small web-games site and
proves what each one promises.

- **Relay** (`relay.dfy`, module `Relay`). This is the PeerJS signalling server that runs on a
  Cloudflare Worker (`PeerJSWSServer`). It keeps a registry `clients` from
  peer id to socket and a table `sessions` from socket to `{id, timer}`. It
  admits WebSocket upgrades that carry a peer id, registers a peer on `OPEN`,
  re-arms a 30-second expiry on `HEARTBEAT`, and forwards every other message
  to its destination peer.
  - Sockets are objects with a `readyState` and an outbox that records every
    `send` and `close` made on them.
  - Timers are abstract tokens. A pending callback fires through
    `Server.FireTimer`.
- **IMEI** (`imei.dfy`, module `Imei`). This is the Luhn mod-10 check digit
  of ISO/IEC 7812-1 Annex B, as 3GPP TS 23.003 applies it to 15-digit IMEIs.
  - `luhnCheck` and `calculateCheckDigit` are loops, proved against recursive
    sum functions.
  - The round trip is proved: a prefix plus its computed check digit passes
    the check.
  - Every single-digit error is proved to be detected.
- **Gomoku** (`gomoku.dfy`, module `Gomoku`). This covers the 15x15 board,
  moves and undo, the five-in-a-row test, the heuristic cell score and the
  one-ply AI that plays the first best-scoring empty cell.
- **Xiangqi** (`xiangqi_rules.dfy`, module `XiangqiRules`, and `xiangqi_game.dfy`, module `Xiangqi`).
  - `XiangqiRules` holds the rules as functions over a 10x9 board of piece
    codes 1..14: the seven per-piece rules, counting pieces between two
    squares, finding a piece, check, checkmate, stalemate and material
    evaluation.
  - `Xiangqi.Game` is the game state. Its methods (`isValidMove`, `isKingInCheck`,
    `getAllPossibleMoves`, `isCheckmate`, `isStalemate`, `executeMove`,
    `undoMove`, `evaluateBoard`) are proved against those functions.
  - The queries try moves on the shared board. They are proved to leave the
    game exactly as they found it.

`wrappers.dfy` holds the `Option` type shared by all modules.

In these places the code behaves in a way that is easy to misread, and the model follows the code:
- `src || id` keeps a claimed `src` rather than overriding it.
- Expiry only drops the registry entries; it never closes the transport.
- A second `OPEN` on the same socket sends `close(1001, "ID-taken")` to that
  socket itself.
- The flying-general branch of the Xiangqi general's rule does not look at the target row.
- `isValidMove` compares the target's colour with the `player` argument, not
  with the colour of the moving piece.
- On the Workers runtime a `send` on a socket whose `close` has been called
  throws. So when `onSocketOpen` closes the very socket it is opening (a
  second `OPEN`), the acknowledgement is never sent, the handler stops, and
  the new session keeps `timer: null` with no expiry armed.

## Model

| member | source | states |
|---|---|---|
| Imei.DigitChar | js/imei-logic.js:136 | the character appended for a digit 0..9 is a digit and parses back to that digit |
| Imei.ParseDigit | js/imei-logic.js:13 | `parseInt` of one character is a number exactly for '0'..'9', with that digit's value; otherwise NaN (`None`) |
| Imei.Doubled | js/imei-logic.js:15-16 | doubling a digit keeps it in 0..9 and congruent to 2d modulo 9 |
| Imei.DoubledInjective | js/imei-logic.js:29-30 | distinct digits stay distinct after doubling |
| Imei.LuhnSum | js/imei-logic.js:11-19 | the sum luhnCheck accumulates lies in 0..9 per digit |
| Imei.PrefixSum | js/imei-logic.js:25-33 | the sum calculateCheckDigit accumulates lies in 0..9 per digit |
| Imei.CheckDigitFor | js/imei-logic.js:34 | the check digit lies in 0..9 and brings the sum to a multiple of 10 |
| Imei.CheckDigitUnique | js/imei-logic.js:20-21 | no other digit in 0..9 brings the sum to a multiple of 10 |
| Imei.ShiftLeavesMultiple | js/imei-logic.js:20 | moving a multiple of 10 by a nonzero amount in -9..9 leaves the multiples of 10 |
| Imei.LuhnCheck | js/imei-logic.js:7-22 | accepts exactly the 15-digit strings whose last digit is the check digit of the first 14; so empty, wrong-length and non-digit input is refused |
| Imei.CalculateCheckDigit | js/imei-logic.js:24-35 | for all-digit input returns the check digit of the positional sum; any non-digit gives NaN |
| Imei.SamePositions | js/imei-logic.js:14 | the `(i+1)%2==0` test and the `i%2!=0` test double the same positions, so both sums agree |
| Imei.ExactlyOneCheckDigit | js/imei-logic.js:20-21 | a 15-digit string passes luhnCheck iff its last digit is calculateCheckDigit of its first 14 |
| Imei.RoundTrip | js/imei-logic.js:135-136 | any 14 digits followed by their computed check digit pass luhnCheck |
| Imei.LuhnSumChangeOne | js/imei-logic.js:11-19 | changing one digit changes the sum by exactly the difference of that position's terms |
| Imei.SingleDigitErrorDetected | js/imei-logic.js:7-22 | a valid IMEI with any one digit changed no longer passes luhnCheck |
| Imei.AnalyzeImei | js/imei-logic.js:38-52 | reports a format error exactly when the input is not 15 digits, and "valid" exactly when luhnCheck holds |
| Imei.CalculateAndShowChecksum | js/imei-logic.js:125-140 | rejects anything but 14 digits and computes nothing then; otherwise the shown IMEI is the prefix plus a digit 0..9 and passes luhnCheck |
| Relay.Forwarded | peerjs-server-worker.js:138 | the forwarded frame keeps type, dst and payload; its src is the claimed src if non-empty, else the sender's id |
| Relay.Socket.constructor | peerjs-server-worker.js:70-72 | an accepted socket is open, bound to its id, with nothing sent |
| Relay.Socket.Send | peerjs-server-worker.js:138 | succeeds exactly when the socket is open, and then appends exactly one message to the outbox; a refused send records nothing; the ready state is left alone |
| Relay.Socket.Close | peerjs-server-worker.js:147 | records the close with its code and reason; the socket is closing unless already closed |
| Relay.Cleared | peerjs-server-worker.js:100 | `clearTimeout` drops exactly the given timer (none for `null`) and keeps every other pending callback |
| Relay.Split | peerjs-server-worker.js:58 | a split gives at least one piece and no piece contains '/' |
| Relay.JoinSplit | peerjs-server-worker.js:58-59 | joining the pieces of a split with '/' gives the path back |
| Relay.SplitPiece | peerjs-server-worker.js:58 | a piece without '/' splits into itself alone |
| Relay.SplitAfterPiece | peerjs-server-worker.js:58 | splitting `p/r` gives p followed by the pieces of r |
| Relay.SplitJoin | peerjs-server-worker.js:58-59 | pieces without '/' survive a join and a split |
| Relay.Decide | peerjs-server-worker.js:56-68 | a request is admitted iff it has a non-empty id and a websocket upgrade header; a missing id gives the "Client ID is required" 400 before the upgrade check's 400 |
| Relay.PathOverridesQuery | peerjs-server-worker.js:60 | with more than three path segments the `id` query parameter is ignored, and an empty segment there is a missing id |
| Relay.PeerJsPath | peerjs-server-worker.js:59-60 | the path `/peerjs/myapp/0.1.0/<peer>/websocket` admits exactly that peer whatever the query says |
| Relay.UpgradeHeader | peerjs-server-worker.js:66 | the upgrade header is compared case-insensitively, and must be exactly "websocket" |
| Relay.Server.constructor | peerjs-server-worker.js:49-53 | a new server has no clients, sessions or timers, and its invariant holds |
| Relay.Server.SetTimeout | peerjs-server-worker.js:101-104 | arms a pending callback under a fresh token |
| Relay.Server.ClearTimeout | peerjs-server-worker.js:100 | the pending callbacks become `Cleared` of the old ones |
| Relay.Server.StartExpiration | peerjs-server-worker.js:96-106 | without a session nothing changes; otherwise the old timer is cleared, a fresh one that closes the session is armed, and the registry is untouched |
| Relay.Server.OnSocketClose | peerjs-server-worker.js:157-167 | deletes the socket's session and its timer, and removes `clients[id]` only if it still maps to this socket; the invariant is kept |
| Relay.Server.FireTimer | peerjs-server-worker.js:101-104 | a pending expiry runs onSocketClose for its socket and id: it is gone afterwards, the socket's session and its current timer are dropped too, the registration only if it still maps to that socket, and no timer is armed; an unknown token does nothing |
| Relay.Server.OnSocketOpen | peerjs-server-worker.js:142-155 | registers the socket under its id; an open previous holder, even the socket itself, gets exactly one close(1001, "ID-taken"); a non-open other holder is untouched; when the socket is still open after that, the OPEN ack is sent, the socket stays open, and a new session with a fresh expiry timer is armed; otherwise the send throws, nothing is sent, and the session stays `{id, timer: null}` with no timer armed; a socket that was not open is left as it was; the invariant is kept |
| Relay.Server.Install | peerjs-server-worker.js:151-154 | registers the socket; on an open socket sends the OPEN ack and starts its expiry; on one that is not open records nothing, leaves the session's timer null and arms nothing |
| Relay.Server.EvictHolder | peerjs-server-worker.js:144-149 | the socket registered under the id gets one close(1001, "ID-taken") if open, and is untouched otherwise |
| Relay.Server.Register | peerjs-server-worker.js:151-152 | maps the id to the socket and gives it a session with no timer, without clearing an earlier timer |
| Relay.Server.OnSocketMessage | peerjs-server-worker.js:108-140 | invalid JSON changes nothing; OPEN does exactly what onSocketOpen does (registry, eviction of an open holder, a non-open other holder untouched, ack and timer with the socket still open, or a thrown send with a non-open socket left as it was); HEARTBEAT with a session clears its timer and arms one fresh timer, changing nothing else in the registry, and without a session changes nothing; any other type leaves the registry untouched and sends exactly one frame to an open registered destination, which stays open, and nothing to anyone otherwise |
| Relay.Server.Fetch | peerjs-server-worker.js:55-77 | a rejected request gets its 400 body; an admitted one gets a fresh open socket bound to the extracted id |
| Gomoku.At | gomoku/script.js:275 | a cell is read exactly when it is on the board |
| Gomoku.Place | gomoku/script.js:251 | writing a cell keeps the board 15x15 |
| Gomoku.PlaceOneCell | gomoku/script.js:251 | a write changes exactly the one cell |
| Gomoku.PlaceBack | gomoku/script.js:294 | writing back a cell's old value restores the board |
| Gomoku.EmptyGrid | gomoku/script.js:94 | the new board is 15x15 and all zero |
| Gomoku.OffsetIsProduct | gomoku/script.js:274 | the step offset is `i * dx` |
| Gomoku.Walk | gomoku/script.js:273-280 | each direction's loop visits four cells |
| Gomoku.RunOf | gomoku/script.js:275 | a run is never longer than the cells walked |
| Gomoku.RunOfIsContiguous | gomoku/script.js:273-276 | the counted run is all the player's stones, and stops at the first other cell |
| Gomoku.RunOfCovers | gomoku/script.js:273-276 | a prefix of the player's stones is always counted |
| Gomoku.Backwards | gomoku/script.js:278 | walking back along a direction is walking forward along its opposite |
| Gomoku.RunIsContiguous | gomoku/script.js:273-276 | every cell of the forward run holds the stone |
| Gomoku.RunBehind | gomoku/script.js:277-280 | every cell of the backward run holds the stone |
| Gomoku.JoinRuns | gomoku/script.js:272-281 | two runs meeting at the stone with a total of 4 or more contain five in a row |
| Gomoku.FiveAlong | gomoku/script.js:281 | a count of five or more gives a window of five stones through (x, y) |
| Gomoku.WinIsFiveInARow | gomoku/script.js:267-284 | a win means five of the stone's colour in a row through (x, y) in one of the four directions |
| Gomoku.FiveInARowIsWin | gomoku/script.js:267-284 | five in a row through a stone at (x, y) is a win, so the win test is exact |
| Gomoku.Stones | gomoku/script.js:523-537 | calculateScore's count per side is at most the four cells scanned |
| Gomoku.OpenEnd | gomoku/script.js:530-532 | each side adds at most one open end |
| Gomoku.LineScan | gomoku/script.js:520-552 | a direction's count lies in 1..9 and its open ends in 0..2 |
| Gomoku.Weight | gomoku/script.js:555-561 | a direction short of five is worth 0..50000, and nothing unless it has an open end and 2..4 stones, or 1 stone and two open ends |
| Gomoku.WeightMonotone | gomoku/script.js:555-561 | more stones with the same open ends are never worth less |
| Gomoku.WeightSum | gomoku/script.js:517-562 | the sum of k direction weights lies in 0..50000k |
| Gomoku.Score | gomoku/script.js:516-564 | calculateScore is 100000 when some direction counts five, else a non-negative sum of at most 200000 |
| Gomoku.WalkStaysOff | gomoku/script.js:526 | once a walk leaves the board it stays off it |
| Gomoku.StonesIsRun | gomoku/script.js:526-536 | skipping off-board steps counts the same run as stopping there |
| Gomoku.PlaceKeepsWalk | gomoku/script.js:502-503 | the cells a direction scans are the same before and after placing the stone itself |
| Gomoku.FiveIsWin | gomoku/script.js:554 | calculateScore sees five for a player exactly when playing that cell wins by checkWin, and then scores 100000 |
| Gomoku.LineScanIsCount | gomoku/script.js:520-552 | on an empty cell, calculateScore's count is checkWin's count after playing there |
| Gomoku.KeepBest | gomoku/script.js:502-508 | a cell that is occupied or not better keeps the argmax invariant |
| Gomoku.TakeBest | gomoku/script.js:504-507 | a strictly better empty cell becomes the best so far |
| Gomoku.BestIsUnique | gomoku/script.js:500-510 | the first cell of maximal score in row-major order is unique |
| Gomoku.LastPos | gomoku/script.js:253 | lastMove is empty exactly with no history, else the last move's cell |
| Gomoku.ClearMoves | gomoku/script.js:291-297 | clearing the undone moves keeps the board 15x15 |
| Gomoku.ClearMovesCells | gomoku/script.js:291-297 | a cell after undo is empty if some undone move was there, else unchanged |
| Gomoku.UndoSteps | gomoku/script.js:288 | undo takes two moves in a game against the AI with more than one move, else one |
| Gomoku.Other | gomoku/script.js:261 | black hands over to white and anything else to black |
| Gomoku.Game.constructor | gomoku/script.js:83-91 | a local (non-online) game starts with the chosen mode, an empty board, no history, black to move |
| Gomoku.Game.InitGame | gomoku/script.js:93-102 | a 15x15 all-zero board, empty history, player 1 to move, not over, no last move |
| Gomoku.Game.CheckWin | gomoku/script.js:267-284 | returns exactly the win test: a stone at (x, y) with five in a row through it |
| Gomoku.Game.CountRun | gomoku/script.js:273-280 | the inner loop counts the run of the stone along one direction |
| Gomoku.Game.CalculateScore | gomoku/script.js:516-564 | returns Score: 100000 for five, else the sum of the direction weights |
| Gomoku.Game.DirectionScan | gomoku/script.js:519-552 | counts the stones and open ends of one direction |
| Gomoku.Game.Points | gomoku/script.js:555-561 | the weight of one direction |
| Gomoku.Game.ScanLine | gomoku/script.js:523-537 | one side's stones and open end |
| Gomoku.Game.BestCell | gomoku/script.js:498-510 | no cell exactly when the board is full; otherwise the first empty cell of maximal combined score |
| Gomoku.Game.BestInRow | gomoku/script.js:501-509 | one row of the scan keeps the argmax invariant |
| Gomoku.Game.ConsiderCell | gomoku/script.js:502-508 | one cell of the scan keeps the argmax invariant |
| Gomoku.Game.CellValue | gomoku/script.js:503 | the combined score for white and black |
| Gomoku.Game.ExecuteMove | gomoku/script.js:247-265 | an occupied cell is refused with nothing changed; otherwise the one cell is written, the move appended, lastMove set, and the turn switches unless the move wins, which ends the game |
| Gomoku.Game.UndoMove | gomoku/script.js:286-302 | clears game over; with too little history nothing else changes; otherwise pops one or two moves, empties their cells, and gives the turn to the last popped move's player |
| Gomoku.Game.TakeBack | gomoku/script.js:291-297 | pops the given number of moves, emptying each cell |
| Gomoku.Game.MakeAIMove | gomoku/script.js:496-514 | over or full: nothing; otherwise white plays the first best-scoring empty cell, the game is over exactly when that move makes five, and the turn passes to black unless it does; mode and colour are kept |
| Gomoku.Game.HandleBoardClick | gomoku/script.js:218-245 | a click is played iff it is this side's turn and the cell is on the board and empty, and then the game is over exactly when that move makes five and the turn passes unless it does; mode and colour are kept; otherwise nothing changes |
| Gomoku.Game.MoveThenUndo | gomoku/script.js:247-302 | outside a game against the AI, a move then an undo restores board, history, turn and last move |
| XiangqiRules.Opponent | xiangqi/script.js:341 | the other side is never the same side |
| XiangqiRules.GeneralOf | xiangqi/script.js:45 | each side's general code has that side's colour |
| XiangqiRules.PieceColor | xiangqi/script.js:49-52 | no colour for 0, red for 1..7, black for every other code |
| XiangqiRules.Set | xiangqi/script.js:335-336 | writing one square changes that square only |
| XiangqiRules.Apply | xiangqi/script.js:335-336 | a move keeps the board 10x9 |
| XiangqiRules.ApplyMovesOnePiece | xiangqi/script.js:335-336 | a move vacates its source, puts the piece on its target, and leaves every other square alone |
| XiangqiRules.RevertRestores | xiangqi/script.js:616-628 | writing back the piece and the captured piece restores the board |
| XiangqiRules.ColumnCount | xiangqi/script.js:427-432 | counts at most the squares scanned |
| XiangqiRules.RowCount | xiangqi/script.js:433-438 | counts at most the squares scanned |
| XiangqiRules.ColumnCountZero | xiangqi/script.js:430-432 | the column count is 0 exactly when those squares are empty |
| XiangqiRules.RowCountZero | xiangqi/script.js:436-438 | the row count is 0 exactly when those squares are empty |
| XiangqiRules.BetweenZeroIsClear | xiangqi/script.js:425-441 | on one line, the count between is 0 exactly when every square strictly between is empty |
| XiangqiRules.BetweenSymmetric | xiangqi/script.js:425-441 | the count between does not depend on which end is the source |
| XiangqiRules.FindInRow | xiangqi/script.js:552-556 | the first column of a row holding the piece |
| XiangqiRules.FindInRows | xiangqi/script.js:551-558 | the first square holding the piece, rows top down |
| XiangqiRules.Locate | xiangqi/script.js:550-559 | findPiece's result holds the piece and no earlier square in row-major order does; none means the piece is absent |
| XiangqiRules.FirstOccurrence | xiangqi/script.js:550-559 | those two conditions single out findPiece's result |
| XiangqiRules.ChariotClearPath | xiangqi/script.js:443-446 | a chariot moves iff along a row or column with every square between empty |
| XiangqiRules.ChariotReversible | xiangqi/script.js:443-446 | a chariot move is valid iff its reverse is |
| XiangqiRules.CannonVersusChariot | xiangqi/script.js:518-528 | a non-capturing cannon moves exactly like a chariot; a capturing one jumps exactly one piece, which a chariot never may |
| XiangqiRules.HorseLeg | xiangqi/script.js:448-460 | a horse moves in an L whose leg square is empty |
| XiangqiRules.ElephantStaysHome | xiangqi/script.js:462-476 | an elephant never crosses the river and its eye square is empty |
| XiangqiRules.AdvisorInPalace | xiangqi/script.js:478-490 | an advisor lands in palace columns 3..5 and its side's palace rows |
| XiangqiRules.GeneralMoves | xiangqi/script.js:492-516 | a general steps once orthogonally in its palace, or moves on a file holding a general with nothing between; the target row is not checked |
| XiangqiRules.PawnNeverBackward | xiangqi/script.js:530-548 | a pawn moves one square, forward, or sideways only across the river; never backward |
| XiangqiRules.StayingPutIsInvalid | xiangqi/script.js:386-388 | moving a piece onto its own square is refused |
| XiangqiRules.ValidMoveGuards | xiangqi/script.js:382-388 | an empty source, or a target holding a piece of `player`'s colour, is refused in both modes |
| XiangqiRules.FacingGeneralsCheckBoth | xiangqi/script.js:580-587 | generals facing on an open file put both sides in check |
| XiangqiRules.MateMeansNoLegalMove | xiangqi/script.js:610-662 | checkmate is in check with no legal move, stalemate is not in check with no legal move, and never both |
| XiangqiRules.PieceValue | xiangqi/script.js:664-683 | every piece code 1..14 has a positive value, every other code 0 |
| XiangqiRules.GeneralOutweighs | xiangqi/script.js:668-681 | both sides value each kind alike; the general's 10000 outweighs a side's other starting pieces |
| XiangqiRules.PawnValueFollowsRiver | xiangqi/script.js:675-680 | a pawn is worth 200 exactly where it may step sideways, across the river, and 100 elsewhere |
| XiangqiRules.Signed | xiangqi/script.js:690-696 | a black piece adds its value, a red piece subtracts it, an empty square adds nothing |
| XiangqiRules.SumFront | xiangqi/script.js:686-699 | the running total can be taken from either end |
| XiangqiRules.SumNegated | xiangqi/script.js:686-699 | negating every term negates the total |
| XiangqiRules.SumReversed | xiangqi/script.js:686-699 | reordering the rows in reverse keeps the total |
| XiangqiRules.RowTerms | xiangqi/script.js:688-697 | each square's signed value in a row |
| XiangqiRules.RowTotals | xiangqi/script.js:687-698 | the total of each row |
| XiangqiRules.Swap | xiangqi/script.js:44-47 | each piece code's counterpart on the other side |
| XiangqiRules.Mirror | xiangqi/script.js:44-47 | the board turned round: rows reversed and colours swapped |
| XiangqiRules.SwapNegates | xiangqi/script.js:664-683 | a piece handed over and mirrored contributes the negation |
| XiangqiRules.MirrorRow | xiangqi/script.js:685-701 | a mirrored row totals the negation of its counterpart |
| XiangqiRules.EvalMirror | xiangqi/script.js:685-701 | evaluateBoard is antisymmetric: turning the board round negates it |
| XiangqiRules.InitialBoard | xiangqi/script.js:90-101 | the starting position is a 10x9 board |
| XiangqiRules.SwapRow | xiangqi/script.js:90-101 | every piece of a row handed to the other side |
| XiangqiRules.InitialBoardSymmetric | xiangqi/script.js:90-101 | the starting position is the same seen from either side |
| XiangqiRules.InitialBoardBalanced | xiangqi/script.js:90-101 | the starting position evaluates to 0 |
| XiangqiRules.InitialRedGeneral | xiangqi/script.js:100 | findPiece finds red's general at (4, 9) at the start |
| XiangqiRules.InitialBlackGeneral | xiangqi/script.js:91 | findPiece finds black's general at (4, 0) at the start |
| XiangqiRules.InitialGeneralsScreened | xiangqi/script.js:94-97 | two pawns stand between the generals at the start |
| Xiangqi.LastMoveOf | xiangqi/script.js:374 | no last move exactly when the history is empty |
| Xiangqi.ListedMoves | xiangqi/script.js:610-662 | for a list of exactly the legal moves, all trials leave check iff every legal move does |
| Xiangqi.Game.constructor | xiangqi/script.js:89-106 | a new game holds the starting position, red to move, no history |
| Xiangqi.Game.InitBoard | xiangqi/script.js:89-115 | the starting position, red to move, no history, not over, no last move |
| Xiangqi.Game.CountPiecesBetween | xiangqi/script.js:425-441 | returns the number of occupied squares strictly between, along a column or a row |
| Xiangqi.Game.FindPiece | xiangqi/script.js:550-559 | returns the first square in row-major order holding the piece, or none |
| Xiangqi.Game.IsValidMove | xiangqi/script.js:381-423 | the game is unchanged on return; with the flag set, valid iff the guards and the piece's rule hold; otherwise also the mover's general is not in check after the move |
| Xiangqi.Game.AttackerInRow | xiangqi/script.js:570-576 | some piece of the attacker in this row may move onto the square |
| Xiangqi.Game.IsKingInCheck | xiangqi/script.js:561-590 | returns exactly InCheck (a missing general counts as check) and leaves the game unchanged |
| Xiangqi.Game.MovesToRow | xiangqi/script.js:598-602 | the legal moves from one square onto one row |
| Xiangqi.Game.MovesFrom | xiangqi/script.js:596-604 | the legal moves from one square |
| Xiangqi.Game.MovesFromRow | xiangqi/script.js:595-605 | the legal moves of the side's pieces in one row |
| Xiangqi.Game.GetAllPossibleMoves | xiangqi/script.js:592-608 | a move is listed iff it starts on a piece of that colour and is legal, and the game is unchanged |
| Xiangqi.Game.TrialLeavesInCheck | xiangqi/script.js:616-628 | a trial move reports check after the move and puts every square back |
| Xiangqi.Game.EveryTrialInCheck | xiangqi/script.js:615-633 | true iff every listed move leaves the side in check; the board is restored |
| Xiangqi.Game.IsCheckmate | xiangqi/script.js:610-636 | exactly checkmate, with the game unchanged on return |
| Xiangqi.Game.IsStalemate | xiangqi/script.js:638-662 | exactly stalemate, with the game unchanged on return |
| Xiangqi.Game.ExecuteMove | xiangqi/script.js:324-363 | an empty source does nothing; otherwise it pushes the pre-move board and mover, makes the move, toggles the side, and ends the game on checkmate or stalemate of the side to move |
| Xiangqi.Game.UndoMove | xiangqi/script.js:365-379 | empty history does nothing; otherwise it restores the newest snapshot and its player exactly and the game is no longer over |
| Xiangqi.Game.MoveThenUndo | xiangqi/script.js:324-379 | for a move from an occupied square, a move and an undo restore board, history, side to move and last move |
| Xiangqi.Game.EvaluateBoard | xiangqi/script.js:685-701 | returns black material minus red material |

## Left out

- DOM, canvas and CSS work in all three pages: drawing, highlighting, resizing, status texts and `updateGameInfo`.
- The pixel-to-cell rounding of both games' click handlers uses floating point. The models take the rounded cell.
- `selectedPiece`, and all of the Xiangqi click handler except the move it makes.
- Network code: PeerJS client set-up, rooms, and the online move and reset sync of both games (gomoku/script.js:305-494, xiangqi/script.js:800-954).
- Real time: the AI `setTimeout` calls, the Gomoku inactivity timer and reconnection countdown. Relay expiry is an abstract pending token, not 30000 ms of wall clock.
- The Cloudflare Durable Object wrapper (peerjs-server-worker.js:170-195), `WebSocketPair`, logging, and `JSON.parse` / `JSON.stringify`. A message reaches the model already parsed, and an outbox holds the envelope, not its text.
- Relay.Server.OnSocketMessage: the id is the socket's own `clientId`, because every listener `handleWebSocket` installs passes the id the socket was accepted with.
- Xiangqi `minimax` and `makeAIMove` (xiangqi/script.js:703-789). These use infinite sentinels, a cache keyed by the board's JSON text, and exponential search.
- Xiangqi.Game.GetAllPossibleMoves: states which moves are listed, not their order. The order only affects which move the left-out AI prefers.
- XiangqiRules.PieceValue: `getPieceValue`'s `x` argument is unused by the source and not a parameter.
- IMEI `modifyAndGenerate` (random numbers and the DOM), `displayNewImei`, `clearAll` and `copyToClipboard` (clipboard API).
- `js/audio.js` is a thin wrapper over the browser's audio element and is not part of this model.
- Gomoku.Game.ExecuteMove: a row index off the board makes the source throw. The model requires an on-board row and keeps the off-board-column refusal.
- Imei.AnalyzeImei and Imei.CalculateAndShowChecksum take the input already trimmed: the source's `.trim()` of the text field (js/imei-logic.js:39, :126) happens before the model.
- Relay.UpgradeHeader: `toLowerCase` is modelled as lowering 'A'..'Z' only. HTTP header values are byte strings, and no character up to U+00FF other than 'A'..'Z' lowers to an ASCII letter, so the comparison with "websocket" comes out the same.
- Gomoku.Game.constructor: `startGame('online')` does not run `initGame`; it enters the left-out network set-up, so the constructor covers the local modes only.
- In-place row writes of both boards are reassignments of a `seq` board here. Both games' snapshots are deep copies, so no row is ever shared.
