/**
 * The server as it runs: one shared `players` object (the two seat fields), one shared engine
 * position, and the stream of messages the handlers have emitted so far. Each handler method
 * changes these in place, statement by statement, and is proved to do what the matching step
 * of module Coordinator says.
 */
module GameServer {
  import opened Protocol
  import opened Engine
  import opened SeatRegistry
  import opened Coordinator

  class ChessServer<P> {
    const rules: Rules<P>
    var white: Option<ConnId>   // players.white
    var black: Option<ConnId>   // players.black
    var engine: P               // the position held by the `chess` object
    var outbox: seq<Delivery>   // every message emitted so far, in order

    ghost function State(): Server<P>
      reads this
    {
      Server(Seats(white, black), engine)
    }

    /** The seat invariant: no connection holds both seats. */
    ghost predicate Valid()
      reads this
    {
      State().seats.Disjoint()
    }

    /** Process start: `new Chess()` and `players = {}`. */
    constructor (rules: Rules<P>)
      ensures this.rules == rules
      ensures State() == Server(Empty, rules.initial) && outbox == []
      ensures Valid()
    {
      this.rules := rules;
      white, black := None, None;
      engine := rules.initial;
      outbox := [];
    }

    /** `io.on("connection", ...)`, app.js:21-40. */
    method OnConnect(id: ConnId)
      modifies this
      ensures State() == Connect(rules, old(State()), id).after
      ensures outbox == old(outbox) + Connect(rules, old(State()), id).out
      ensures old(Valid()) && !old(State().seats.Holds(id)) ==> Valid()
    {
      if white.None? && black.None? {
        white, black := None, None;
      }
      if white.None? {
        white := Some(id);
        outbox := outbox + [Delivery(To(id), PlayerRole(W))];
      } else if black.None? {
        black := Some(id);
        outbox := outbox + [Delivery(To(id), PlayerRole(B))];
      } else {
        outbox := outbox + [Delivery(To(id), PlayerRole(Spectator))];
      }
      outbox := outbox + [Delivery(To(id), BoardState(rules.fen(engine)))];
    }

    /** `assignNextPlayer(color)`, app.js:94-105. */
    method AssignNextPlayer(c: Color, connected: seq<ConnId>)
      modifies this
      ensures State() == AssignNext(rules, old(State()), c, connected).after
      ensures outbox == old(outbox) + AssignNext(rules, old(State()), c, connected).out
      ensures old(Valid()) ==> Valid()
    {
      var available := Available(connected, Seats(white, black));
      if |available| > 0 {
        var newPlayer := available[0];
        if c == White {
          white := Some(newPlayer);
        } else {
          black := Some(newPlayer);
        }
        outbox := outbox + [Delivery(To(newPlayer), PlayerRole(SeatRole(c)))];
        outbox := outbox + [Delivery(To(newPlayer), BoardState(rules.fen(engine)))];
      }
    }

    /**
     * `socket.on("disconnect", ...)`, app.js:42-55; `connected` lists the live socket ids in
     * connection order when the handler runs.
     */
    method OnDisconnect(id: ConnId, connected: seq<ConnId>)
      modifies this
      ensures State() == Disconnect(rules, old(State()), id, connected).after
      ensures outbox == old(outbox) + Disconnect(rules, old(State()), id, connected).out
      ensures old(Valid()) ==> Valid()
    {
      if white == Some(id) {
        white := None;
        AssignNextPlayer(White, connected);
      } else if black == Some(id) {
        black := None;
        AssignNextPlayer(Black, connected);
      }
    }

    /** `socket.on("move", ...)`, app.js:57-91. */
    method OnMove(id: ConnId, mv: MoveRequest)
      modifies this
      ensures State() == Move(rules, old(State()), id, mv).after
      ensures outbox == old(outbox) + Move(rules, old(State()), id, mv).out
      ensures white == old(white) && black == old(black)
    {
      var isWhitePlayer := white == Some(id);
      var isBlackPlayer := black == Some(id);

      if !isWhitePlayer && !isBlackPlayer {
        outbox := outbox + [Delivery(To(id), InvalidMove("Spectators cannot move"))];
        return;
      }

      if (rules.turn(engine) == White && !isWhitePlayer) ||
         (rules.turn(engine) == Black && !isBlackPlayer) {
        outbox := outbox + [Delivery(To(id), InvalidMove("Not your turn"))];
        return;
      }

      var result := rules.tryMove(engine, mv);
      match result
      case Rejected =>
        outbox := outbox + [Delivery(To(id), InvalidMove("Invalid move"))];
      case Fault(reason) =>
        outbox := outbox + [Delivery(To(id), InvalidMove(reason))];
      case Accepted(next) =>
        engine := next;
        outbox := outbox + [Delivery(All, BoardState(rules.fen(engine)))];
        if rules.isGameOver(engine) {
          var message := if rules.isCheckmate(engine)
                         then "Checkmate! " + (if rules.turn(engine) == White then "Black" else "White") + " wins!"
                         else "Game drawn!";
          outbox := outbox + [Delivery(All, GameOver(message))];
          engine := rules.initial;
        }
    }
  }
}
