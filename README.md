# Tic-tac-toe session coordinator

This is a Dafny model of the game-session core of `server.js`, a two-player
tic-tac-toe server built on WebSockets. The core consists of:

- the session record `{ players, board, turn, state }`;
- the connection (join), message and close handlers, which change that record in place;
- `broadcastGameState`, which sends one message to every player in list order;
- the outcome checks `checkWin` and `checkTie`.

Node runs the handlers one at a time on its event loop, so each callback is
modelled as one atomic call. Every `ws.send` a handler makes becomes an event
`Send(connection, message)`, and `ws.close()` becomes `Close(connection)`.
Events are returned in the order they are sent.

The project has five files:

- `board.dfy` (module `Board`): cells, marks, `checkWin` as the `some`/`every`
  recursion over the eight listed triples, `checkTie`, and the win-before-tie
  evaluation. It also gives an independent geometric definition of "three in a
  row" (rows, columns and the two diagonals of the 3x3 grid) and proves that
  `checkWin` agrees with it.
- `coordinator.dfy` (module `Coordinator`): the handlers as functions on a
  session value. Each maps (session, connection, message) to (new session,
  ordered events). The connection type is a type parameter, because the
  server only compares connections for identity.
- `session.dfy` (module `Session`): the mutable form of `server.js`.
  - A `Session` class has a `players` sequence, a nine-cell `array` board,
    `turn` and `state`.
  - A `Connection` class carries the `playerIndex` tag set at join time.
  - The three handlers are methods, and the `forEach` send loops are methods
    with loop invariants.
  - Each handler is proved to produce exactly the new session and the events
    of its counterpart in `Coordinator`.
- `properties.dfy` (module `Properties`): what the handlers promise. This
  covers the session invariant, join and start, ignored and accepted moves,
  outcome reporting, rematch, and disconnect.
- `scenarios.dfy` (module `Scenarios`): whole games replayed through the
  model. They are a top-row win, a full-board tie, an out-of-turn move, and a
  leave followed by a rejoin.

The session `state` field is absent until the second join or the first
close, whichever comes first; the model calls that phase `Unset`. A lone
player who closes sets it to "waiting" before anyone else has joined. After a win or a tie the state stays active, and
the board and turn are cleared in the same step. The code has no terminal
phase and no record of rematch consent, and the model follows the code.

A move is accepted only when all of these hold:

- the session is active;
- the connection's stored index equals `turn`;
- the index lies in 0..8;
- that cell is empty.

Any other move changes nothing and sends nothing. In particular, an index
off the board reads `undefined`, never `null`, so the move is ignored.

Each connection keeps the index it was given at join time: the list length
before the push. The index is never recomputed. So after the first player leaves
and a new connection joins, both remaining connections hold index 1 while
the turn is 0. Neither of the two can ever place a mark while both stay:
whatever messages they send, the turn stays 0. Play resumes only once the
list changes again. If both leave, the next two joiners get indices 0 and 1.
`Scenarios.RejoinDuplicatesIndex`, `Scenarios.RejoinBlocksWhileBothStay` and
`Scenarios.RejoinBlocksBothPlayers` show this.

## Model

| member | source | states |
|---|---|---|
| Board.SymbolOf | server.js:81 | the mark of an index is X exactly for index 0 and O for every other index |
| Board.EmptyBoard | server.js:26 | the initial board has nine cells, all null |
| Board.AllMarked | server.js:180 | `every` over a line holds iff each listed cell carries the symbol |
| Board.AnyLineMarked | server.js:179-181 | `some` over the lines holds iff at least one listed line is fully marked |
| Board.CheckWin | server.js:166-184 | checkWin is `some` over the eight listed triples of `every` cell holding the mover's symbol |
| Board.CheckTie | server.js:186-188 | checkTie holds iff no cell of the board is null |
| Board.CheckWinCases | server.js:166-184 | checkWin holds iff one of the eight listed triples carries the player's symbol in all three cells |
| Board.ThreeInARowCases | server.js:168-177 | the eight listed triples are exactly the three rows, three columns and two diagonals of the 3x3 grid |
| Board.CheckWinIsThreeInARow | server.js:166-184 | checkWin(p, board) holds iff the board has a row, column or diagonal filled with p's symbol (X for index 0, O otherwise) |
| Board.CheckWinSeesOnlyMover | server.js:166-184 | only cells holding the mover's symbol matter: boards that agree on those cells give the same checkWin result |
| Board.Evaluate | server.js:117-118 | the outcome is a win iff the mover has three in a row, and a tie iff there is no such line and every cell is occupied |
| Board.FullWinningBoardIsWin | server.js:117-118 | a full board that has a line for the mover is reported as a win and never as a tie |
| Coordinator.Broadcast | server.js:64-68 | one send of the message to each player, in list order and to nobody else |
| Coordinator.Remove | server.js:159 | the filtered list no longer holds the closing connection, and is unchanged when it held none |
| Coordinator.RemoveCounts | server.js:159 | the filter drops every occurrence of the connection and keeps every other connection as often as it occurs |
| Coordinator.RemoveAppend | server.js:159 | filtering keeps the order of the remaining connections |
| Coordinator.Initial | server.js:26 | a new session has no players, no state, an empty board and turn 0, and satisfies the session invariant |
| Coordinator.StartEvents | server.js:88-97 | start goes to every player in list order, carries the turn, and has yourTurn true exactly at the position equal to the turn |
| Coordinator.Join | server.js:76-101 | admitted iff fewer than two are present: then the connection is appended with the list length before the push as its index and is sent its role first, else it is closed and nothing changes; the board is never touched; the second join sets state active, turn 0 and sends start |
| Coordinator.MoveAccepted | server.js:112-115 | a move is accepted iff the session is active, the sender's stored index equals the turn, and the index is a cell of the board holding null |
| Coordinator.PlayMove | server.js:115-137 | an accepted move keeps the players and the state and a nine-cell board, leaves turn in {0, 1}, and first sends move (index, mover's mark) to every player in list order, then one more message to every player in list order |
| Coordinator.Dispatch | server.js:103-156 | the message handler keeps a nine-cell board and never changes the players list or the state |
| Coordinator.Leave | server.js:158-163 | the closer is gone, every other connection is kept as often as it was listed, board and turn are kept, and the state is waiting when fewer than two remain and unchanged otherwise |
| Coordinator.RecipientsOfBroadcast | server.js:64-68 | a broadcast reaches exactly the player list, in order |
| Properties.JoinPreservesInv | server.js:76-101 | a join keeps a nine-cell board, turn in {0, 1}, at most two players, and "active iff two players" |
| Properties.DispatchPreservesInv | server.js:103-156 | every message keeps the session invariant |
| Properties.LeavePreservesInv | server.js:158-163 | a disconnect keeps the session invariant |
| Properties.JoinAssignsIndex | server.js:76-101 | while fewer than two are present, the connection is appended, gets the list length before the push as its index and is sent its role (X for index 0, O otherwise); with two present it is closed and nothing changes |
| Properties.SecondJoinStarts | server.js:85-97 | the second join sets state active and turn 0, leaves the board as it was, and sends role to the joiner and then start to both players in list order, with yourTurn true exactly for the first |
| Properties.InactiveIgnoresAll | server.js:112 | while the session is not active, every message changes nothing and sends nothing |
| Properties.IgnoredMoveIsNoOp | server.js:112-115 | a move by a non-holder of the turn, to an occupied cell or off the board, or while inactive, changes nothing and sends nothing |
| Properties.MoveVisibleIffAccepted | server.js:115-138 | in a reachable session, a move sends events exactly when it is accepted |
| Properties.OngoingMove | server.js:115-137 | an accepted move with no outcome marks exactly that cell with the mover's symbol, keeps every other cell, flips the turn to the other index and sends move (index, mover's mark) then turn (new index) to every player |
| Properties.WinningMove | server.js:120-129 | a winning move sends move then win carrying the mover's index, and leaves an empty board with turn 0 and the state active |
| Properties.TyingMove | server.js:115-133 | a tying move sends move then tie, and leaves an empty board with turn 0 and the state active |
| Properties.OutcomeReported | server.js:117-133 | win is sent iff the mover then has three in a row; tie is sent iff there is no such line and the board is full |
| Properties.MarksAreKept | server.js:112-156 | a marked cell is never overwritten; the only way it is cleared is a reset of the whole board |
| Properties.RematchNotifiesOthers | server.js:140-146 | rematch sends rematchOffer to every other listed connection and never to the sender, and changes nothing |
| Properties.RematchAcceptedResets | server.js:147-153 | rematchAccepted sends reset to every player whoever sent it, with no prior offer needed, and restores the initial board and turn 0 |
| Properties.RematchAcceptedIdempotent | server.js:147-153 | accepting a rematch twice leaves the same session as accepting it once |
| Properties.ResetAfterOutcomeIsRedundant | server.js:126-153 | after a win or a tie, rematchAccepted finds the board already reset and changes nothing |
| Properties.LeaveRemovesOnlyCloser | server.js:158-163 | a disconnect removes exactly the closing connection, keeps board and turn, and sets the state to waiting iff fewer than two players remain |
| Properties.CloseOfUnlistedIsNoOp | server.js:158-163 | closing a connection that is not listed changes nothing in a reachable session that has had a second join or a close |
| Scenarios.StartedIsActive | server.js:76-97 | two joins on a new session give an active session of those two, with an empty board and turn 0 |
| Scenarios.ReplayAppend | server.js:103 | handling two batches of messages ends where handling the second batch from the end of the first does |
| Scenarios.TopRowWin | server.js:115-129 | X at 0 and 1 with O at 3 and 4 in between, then X at 2, sends move for index 2 and then win for player 0 to both, and resets the board |
| Scenarios.FullBoardTie | server.js:115-133 | X 0, O 1, X 2, O 4, X 3, O 5, X 7, O 6 fills all but cell 8; X at 8 sends move then tie to both and resets the board |
| Scenarios.OutOfTurnMoveIgnored | server.js:115 | player 1 moving while player 0 holds the turn changes nothing and sends nothing |
| Scenarios.FirstLeaves | server.js:158-163 | when the first of two players closes, the other is left alone in a waiting session with the board and turn kept |
| Scenarios.RejoinDuplicatesIndex | server.js:77-163 | after a leave and a rejoin both connections hold index 1, start tells the first of them it is its turn, and neither can move |
| Scenarios.IndexOneNeverMoves | server.js:112-153 | while the turn is 0, no series of messages carrying index 1 ever produces a move event or changes the turn, players or state |
| Scenarios.RejoinBlocksWhileBothStay | server.js:77-163 | after a leave and a rejoin the two remaining connections both hold index 1 and, whatever messages carrying index 1 arrive while both stay, no mark is placed and the turn stays 0 |
| Scenarios.RejoinBlocksBothPlayers | server.js:77-163 | the same rejoin on the mutable session: the two remaining connections are distinct, both are tagged with index 1, and a move from each sends nothing |
| Session.SendAll | server.js:64-68 | the send loop produces exactly the broadcast of the message to the list |
| Session.SendToOthers | server.js:141-145 | the rematch loop produces exactly the broadcast to the list without the sender |
| Session.SendStart | server.js:88-97 | the start loop sends start to the k-th player with yourTurn exactly when k is the turn |
| Session.Connection.constructor | server.js:71 | a new connection has no player index |
| Session.Session.constructor | server.js:26 | the new session record equals the initial session value |
| Session.Session.ClearBoard | server.js:128-151 | board.fill(null) leaves every cell empty |
| Session.Session.Connect | server.js:76-101 | the join handler's new record, events and stored player index are those of the join function |
| Session.Session.OnMessage | server.js:103-156 | the message handler's new record and events are those of the dispatch function, given the index stored on the connection |
| Session.Session.PlayAt | server.js:116-137 | the accepted-move branch writes the mover's mark in the array, then leaves the record and sends the events of the move function |
| Session.Session.OnClose | server.js:158-163 | the close handler's new record is that of the leave function |

## Left out

- HTTP plumbing is outside the model: the Express routes and static hosting,
  the upgrade handler, URL path parsing and the session registry keyed by
  game id (`server.js:8-62`), `uuidv4`, and `server.listen`. The handlers
  work on the one session that the game id selects.
- The `new-game` route is left out, but the session value it builds
  (`server.js:26`) is modelled.
- `JSON.parse` and `JSON.stringify` are left out, and so is the transport.
  Messages are datatypes, and a malformed JSON payload is not modelled.
- A message whose `type` is none of the three known ones is the single
  variant `Unrecognized`; it falls through the switch.
- `data.index` is modelled as an integer. JavaScript also allows a string
  key such as `"3"`, a fraction, or a missing field. A missing field or a
  fraction reads `undefined` and is ignored, like an off-board integer. A
  numeric string would address a real cell; the model does not represent it.
- The sockets themselves are left out. A send is an event in the returned
  sequence, and `ws.close()` is a `Close` event. Whether a send reaches its
  client is not modelled.
- The close event that a refused connection later raises is not modelled
  as a separate step. Running `OnClose` on it changes nothing in any reachable
  session, even after a player has left: the connection is not in the list,
  and when fewer than two players remain the state is already waiting
  (`Properties.CloseOfUnlistedIsNoOp`).
- `public/app.js` is not part of this model: it is the browser client.
- Concurrency is left out. Node's event loop runs one handler at a time, so
  each handler is one atomic method call.
- There is no terminal phase between games and no record of rematch
  consent, because the code keeps neither. After a win or a tie the state
  stays active, and a rematch offer is recorded nowhere.
- The remaining player gets no message when the other disconnects. The
  model sends nothing there either.
