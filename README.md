# Chess server seats and move authorization, modelled in Dafny

This project models the session core of a two-player chess server with spectators (`app.js`).
One process holds a single game. It has two parts:

- the `players` object, which says which socket sits in the White seat and which in the Black seat;
- one chess.js `Chess` engine.

Three socket handlers change that state:

- **connection** gives the newcomer White, then Black, then Spectator, and sends it its role and the current FEN.
- **disconnect** frees the leaver's seat, and `assignNextPlayer` hands it to the first connected socket that holds no seat.
- **move** does four things in order:
  - it turns away spectators;
  - it turns away the seated player whose colour is not to move;
  - it hands the move to the engine, and turns the move away if the engine rejects it or throws;
  - it broadcasts the new position, and when the game is over it broadcasts `gameOver` and resets the engine.

Modules (one file each):

- `Protocol` (`protocol.dfy`) defines connection ids, colours, roles, the four outbound messages and their recipients. A recipient is one socket or all sockets.
- `Engine` (`engine.dfy`) treats chess.js as an abstract collaborator. It is a record `Rules<P>` of total functions over an arbitrary position type `P`:
  - `initial`;
  - `turn`;
  - `tryMove`, which gives `Accepted(next)`, `Rejected` or `Fault(message)`;
  - `isGameOver` and `isCheckmate`;
  - `fen`.

  The one chess fact the messages rely on is "an accepted move passes the turn". It is the predicate `TurnAlternates`, and lemmas take it as a hypothesis.
- `SeatRegistry` (`seats.dfy`) models the `players` object as `Seats`, the `available` filter of `assignNextPlayer` as `Available`, and the reset at the top of the connection handler as `ResetIfVacant`.
- `Coordinator` (`coordinator.dfy`) models each handler as a pure step from the state (`Server`: seats and position) to the new state and the messages emitted, in order. Lemmas state what the steps promise.
- `GameServer` (`server.dfy`) is the class `ChessServer`. Its fields `white`, `black`, `engine` and `outbox` are changed in place by `OnConnect`, `OnDisconnect`, `AssignNextPlayer` and `OnMove`, statement by statement as in `app.js`. Each method is proved to produce exactly the state and messages of its `Coordinator` step. `OnDisconnect` and `AssignNextPlayer` keep the seat invariant "no socket holds both seats". `OnConnect` keeps it when the newcomer holds no seat yet. `OnMove` leaves both seats unchanged.
- `Session` (`session.dfy`) models whole runs. The socket transport becomes a list of live ids in connection order. An inductive invariant says that seats only hold live sockets and never the same socket twice. It also proves the connection and promotion scenarios as lemmas.

## Model

| member | source | states |
|---|---|---|
| SeatRegistry.ResetIfVacant | app.js:24-25 | the "reset players if both disconnected" step never changes who occupies a seat, since seats only hold truthy socket ids |
| SeatRegistry.Available | app.js:95-96 | the available ids are exactly the connected ids that hold no seat; if there are any, the first is the first such id in connection order |
| SeatRegistry.Seats.RoleOf | app.js:60-63 | a socket is White exactly when it occupies the White seat, and counts as a spectator exactly when it occupies neither seat |
| Coordinator.Connect | app.js:21-39 | White fills first, then Black; once all seats are full the newcomer is a Spectator; a seated socket is never displaced and only the seat the newcomer takes changes; the newcomer alone receives exactly its `playerRole` and then the current `boardState`; the engine is untouched |
| Coordinator.AssignNext | app.js:94-105 | the other seat and the engine are untouched; if every connected socket is seated, nothing changes and nothing is sent; otherwise the seat goes to the first connected socket holding no seat, which alone receives its role and the board |
| Coordinator.Disconnect | app.js:42-55 | the engine is never changed; a leaver that holds no seat changes nothing and causes no message |
| Coordinator.DisconnectPromotesFirstSpectator | app.js:46-52 | when the occupant of a seat leaves, the other seat is untouched and the seat no longer holds the leaver; the seat is vacant exactly when every connected socket is seated; otherwise it goes to a former spectator, the first unseated socket in connection order, which alone gets its role and the board; no socket ends up in both seats |
| Coordinator.Move | app.js:57-91 | seats never change; a socket whose role is Spectator (it holds no seat) gets "Spectators cannot move", and a seated socket that is not to move gets "Not your turn"; a rejection from the engine gets "Invalid move", and a fault gets the error's message; each of these is one private reply that changes nothing; an accepted move broadcasts the new FEN to everyone; on game over it then broadcasts the game-over text and leaves the engine at its initial position |
| Coordinator.MoveAcceptedIff | app.js:60-77 | something is broadcast exactly when the sender occupies the seat of the side to move and the engine accepts the move; in every other case the state is unchanged and the only message is one `invalidMove` to the sender |
| Coordinator.MoveIgnoresEngineUnlessTurnOwner | app.js:67-73 | for a sender that does not occupy the side to move, the outcome does not depend on what the engine would say about the move |
| Coordinator.CheckmateNamesMover | app.js:80-84 | for an engine whose accepted moves pass the turn, the mover occupies the seat of the side that was to move, and the opponent is to move in the new position; a checkmate announces "Checkmate! <mover's colour> wins!" and any other game end announces "Game drawn!" |
| GameServer.ChessServer.constructor | app.js:11-12 | the server starts with both seats vacant, the engine at its initial position and no messages sent |
| GameServer.ChessServer.OnConnect | app.js:21-40 | the in-place update of the seats and the appended messages are exactly those of `Connect`; for a socket that holds no seat yet, no socket ends up in both seats |
| GameServer.ChessServer.AssignNextPlayer | app.js:94-105 | the in-place update and the appended messages are exactly those of `AssignNext`; no socket ends up in both seats |
| GameServer.ChessServer.OnDisconnect | app.js:42-55 | the in-place update and the appended messages are exactly those of `Disconnect`; no socket ends up in both seats |
| GameServer.ChessServer.OnMove | app.js:57-91 | the position and the appended messages are exactly those of `Move`; both seats are unchanged |
| Session.StartIsValid | app.js:11-12 | the starting state has both seats vacant and satisfies the session invariant |
| Session.DeliverPreservesInv | app.js:21-105 | each connect of a fresh socket, each disconnect and each move keeps two facts: every seat holds a live socket, and no socket holds both seats; every private message goes to a live socket |
| Session.RunPreservesInv | app.js:21-105 | the session invariant holds after every sequence of events |
| Session.ThreeConnections | app.js:28-39 | three sockets that connect in turn are told W, B and Spectator, each followed by the current board, and they occupy White, Black and no seat |
| Session.SpectatorTakesVacatedWhite | app.js:46-48 | if White leaves while Black and a spectator are connected, the spectator takes White and alone receives "W" and the board |

## Left out

- `public/js/chessGame.js` is not part of this model. It is browser-side board rendering and drag-and-drop wiring, with no state the server depends on.
- The Express, HTTP and EJS setup, static file serving and `server.listen` (app.js:1-19, 107-109) are I/O plumbing.
- `console.log` calls have no effect on state or messages.
- chess.js itself (move legality, FEN encoding, checkmate and draw detection) is outside this repository. It is an abstract `Rules<P>`. The only property of it that is used is `TurnAlternates`, and only as a lemma hypothesis.
- A throwing `chess.move` is modelled as leaving the position unchanged. The model assumes chess.js validates before it mutates.
- Exceptions from calls other than `chess.move` inside the `move` handler's `try` are not modelled. These are `chess.turn` (app.js:67-68), `chess.fen`, `chess.isGameOver`, `chess.isCheckmate`, `chess.reset`, `io.emit`, and the `socket.emit` calls at app.js:64, 69 and 74.
- The `move` payload is whatever the client sent: an object or a move string. The record `MoveRequest(from, to, promotion)` stands for any such payload. The server inspects none of its fields, validates nothing and hands it to `chess.move` unchanged.
- socket.io transport semantics are not modelled. That covers delivery, per-connection ordering, and how `io.sockets.sockets` is filled.
  - `OnDisconnect` and `Disconnect` take the live ids, in connection order, as a parameter.
  - `Session` reduces the transport to an ordered list of live ids: connect appends a fresh id, disconnect removes the id before the handler runs, and events are handled one at a time.
- Session.DeliverPreservesInv: states "private messages go only to live sockets" for one event at a time. Over a whole run that is false: a later disconnect removes a socket that was messaged earlier. Session.RunPreservesInv therefore carries only the seat invariant.
- Coordinator.Disconnect: its contract states only the engine and spectator-leaver cases. What a seated leaver causes is stated by DisconnectPromotesFirstSpectator. That lemma assumes the seats are disjoint and the leaver is no longer among the live ids.

## Behaviour of the code worth knowing

- After a game ends, the code resets the engine and broadcasts no `boardState` of the reset position (app.js:84-85). So the last position clients received from the server is the final one, not the reset one.
- The reset at the top of the connection handler (app.js:25) clears only `players`, and only when both seats are already vacant, so it changes nothing. It never resets the engine.
- When a seated player disconnects, the seat goes to the first connected socket that holds no seat, in `io.sockets.sockets` order. If every connected socket already holds a seat, the seat stays vacant (app.js:95-104).
