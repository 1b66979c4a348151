/**
 * The socket handlers of the server as pure steps: each takes the shared state (the seats and
 * the engine's position) and one event, and gives the new state and the messages emitted, in
 * the order they are emitted.
 */
module Coordinator {
  import opened Protocol
  import opened Engine
  import opened SeatRegistry

  /** The process-wide `players` object and `chess` engine. */
  datatype Server<P> = Server(seats: Seats, engine: P)

  datatype Step<P> = Step(after: Server<P>, out: seq<Delivery>)

  /** A role, then a snapshot of the position, both to `id` alone. */
  function Greeting(id: ConnId, role: Role, fen: string): seq<Delivery>
  {
    [Delivery(To(id), PlayerRole(role)), Delivery(To(id), BoardState(fen))]
  }

  // ---------------------------------------------------------------------------------------
  // connection

  /** The `connection` handler: reset, take the first vacant seat, greet the newcomer. */
  function Connect<P>(rules: Rules<P>, st: Server<P>, id: ConnId): (r: Step<P>)
    ensures r.after.engine == st.engine
    // White fills first, and a seated connection is never displaced
    ensures r.after.seats.white.Some?
    ensures st.seats.white.Some? ==> r.after.seats.white == st.seats.white && r.after.seats.black.Some?
    ensures st.seats.black.Some? ==> r.after.seats.black == st.seats.black
    // the only seat that changes is the one the newcomer takes
    ensures r.after.seats.white != st.seats.white ==>
              r.after.seats.white == Some(id) && r.after.seats.black == st.seats.black
    ensures r.after.seats.black != st.seats.black ==> r.after.seats.black == Some(id)
    // the newcomer alone hears its role, then the current position
    ensures |r.out| == 2 && UnicastTo(r.out, id)
    ensures r.out[0].msg.PlayerRole? && r.out[1].msg == BoardState(rules.fen(st.engine))
    ensures r.out[0].msg.role == W <==> st.seats.white.None?
    ensures r.out[0].msg.role == Spectator <==> st.seats.white.Some? && st.seats.black.Some?
    ensures !st.seats.Holds(id) ==> r.out[0].msg.role == r.after.seats.RoleOf(id)
  {
    var seats := ResetIfVacant(st.seats);
    var fen := rules.fen(st.engine);
    if seats.white.None? then
      Step(Server(seats.(white := Some(id)), st.engine), Greeting(id, W, fen))
    else if seats.black.None? then
      Step(Server(seats.(black := Some(id)), st.engine), Greeting(id, B, fen))
    else
      Step(Server(seats, st.engine), Greeting(id, Spectator, fen))
  }

  // ---------------------------------------------------------------------------------------
  // disconnection

  /** `id` is the first of `connected`, in order, that holds no seat of `s`. */
  ghost predicate FirstUnseated(connected: seq<ConnId>, s: Seats, id: ConnId)
  {
    !s.Holds(id) &&
    exists k :: 0 <= k < |connected| && connected[k] == id &&
      forall j :: 0 <= j < k ==> s.Holds(connected[j])
  }

  /**
   * `assignNextPlayer(color)`: seat the first connected id that holds no seat and greet it;
   * when every connected id is seated, do nothing.
   */
  function AssignNext<P>(rules: Rules<P>, st: Server<P>, c: Color, connected: seq<ConnId>): (r: Step<P>)
    ensures r.after.engine == st.engine
    ensures r.after.seats.Occupant(Other(c)) == st.seats.Occupant(Other(c))
    ensures (forall x :: x in connected ==> st.seats.Holds(x)) ==> r.after == st && r.out == []
    ensures (exists x :: x in connected && !st.seats.Holds(x)) ==>
              exists n :: FirstUnseated(connected, st.seats, n) &&
                r.after.seats.Occupant(c) == Some(n) &&
                r.out == Greeting(n, SeatRole(c), rules.fen(st.engine))
  {
    var available := Available(connected, st.seats);
    if |available| > 0 then
      var newPlayer := available[0];
      Step(Server(st.seats.With(c, Some(newPlayer)), st.engine),
           Greeting(newPlayer, SeatRole(c), rules.fen(st.engine)))
    else
      Step(st, [])
  }

  /**
   * The `disconnect` handler. `connected` lists the live socket ids in connection order at the
   * time the handler runs.
   */
  function Disconnect<P>(rules: Rules<P>, st: Server<P>, id: ConnId, connected: seq<ConnId>): (r: Step<P>)
    ensures r.after.engine == st.engine
    ensures !st.seats.Holds(id) ==> r.after == st && r.out == []
  {
    if st.seats.white == Some(id) then
      AssignNext(rules, Server(st.seats.With(White, None), st.engine), White, connected)
    else if st.seats.black == Some(id) then
      AssignNext(rules, Server(st.seats.With(Black, None), st.engine), Black, connected)
    else
      Step(st, [])
  }

  /**
   * When the occupant of seat `c` leaves (and the transport has already dropped it from
   * `connected`), the other seat is untouched, the seat goes to the first connected id that
   * held no seat, who alone is told its role and the position, or stays vacant when there is
   * no such id; and still no connection holds both seats.
   */
  lemma DisconnectPromotesFirstSpectator<P>(rules: Rules<P>, st: Server<P>, c: Color,
                                            connected: seq<ConnId>)
    requires st.seats.Disjoint() && st.seats.Occupant(c).Some?
    requires st.seats.Occupant(c).value !in connected
    ensures var r := Disconnect(rules, st, st.seats.Occupant(c).value, connected);
      r.after.engine == st.engine &&
      r.after.seats.Occupant(Other(c)) == st.seats.Occupant(Other(c)) &&
      r.after.seats.Occupant(c) != st.seats.Occupant(c) &&
      r.after.seats.Disjoint() &&
      (r.after.seats.Occupant(c).None? <==> forall x :: x in connected ==> st.seats.Holds(x)) &&
      (r.after.seats.Occupant(c).None? ==> r.out == []) &&
      (r.after.seats.Occupant(c).Some? ==>
         var n := r.after.seats.Occupant(c).value;
         !st.seats.Holds(n) &&
         FirstUnseated(connected, st.seats.With(c, None), n) &&
         r.out == Greeting(n, SeatRole(c), rules.fen(st.engine)))
  {
  }

  // ---------------------------------------------------------------------------------------
  // moves

  /** `id` occupies the seat of the colour the engine says is to move. */
  predicate MayMove<P>(rules: Rules<P>, st: Server<P>, id: ConnId)
  {
    st.seats.Occupant(rules.turn(st.engine)) == Some(id)
  }

  /** A rejection: one `invalidMove` to the requester, and no change. */
  function Reject<P>(st: Server<P>, id: ConnId, reason: string): Step<P>
  {
    Step(st, [Delivery(To(id), InvalidMove(reason))])
  }

  /** The `gameOver` text for a finished position; on checkmate the side to move has lost. */
  function GameOverMessage<P>(rules: Rules<P>, p: P): string
  {
    if rules.isCheckmate(p) then "Checkmate! " + ColorName(Other(rules.turn(p))) + " wins!"
    else "Game drawn!"
  }

  /** The `move` handler. */
  function Move<P>(rules: Rules<P>, st: Server<P>, id: ConnId, mv: MoveRequest): (r: Step<P>)
    ensures r.after.seats == st.seats
    ensures st.seats.RoleOf(id) == Spectator ==> r == Reject(st, id, "Spectators cannot move")
    ensures st.seats.Holds(id) && !MayMove(rules, st, id) ==> r == Reject(st, id, "Not your turn")
    ensures MayMove(rules, st, id) ==>
      match rules.tryMove(st.engine, mv)
      case Rejected => r == Reject(st, id, "Invalid move")
      case Fault(reason) => r == Reject(st, id, reason)
      case Accepted(next) =>
        (forall d :: d in r.out ==> d.to == All) &&
        |r.out| >= 1 && r.out[0].msg == BoardState(rules.fen(next)) &&
        (!rules.isGameOver(next) ==> r.after.engine == next && |r.out| == 1) &&
        (rules.isGameOver(next) ==>
           r.after.engine == rules.initial && |r.out| == 2 &&
           r.out[1].msg == GameOver(GameOverMessage(rules, next)))
  {
    var isWhitePlayer := st.seats.white == Some(id);
    var isBlackPlayer := st.seats.black == Some(id);
    if !isWhitePlayer && !isBlackPlayer then
      Reject(st, id, "Spectators cannot move")
    else if (rules.turn(st.engine) == White && !isWhitePlayer) ||
            (rules.turn(st.engine) == Black && !isBlackPlayer) then
      Reject(st, id, "Not your turn")
    else
      match rules.tryMove(st.engine, mv)
      case Rejected => Reject(st, id, "Invalid move")
      case Fault(reason) => Reject(st, id, reason)
      case Accepted(next) =>
        var board := [Delivery(All, BoardState(rules.fen(next)))];
        if rules.isGameOver(next) then
          Step(Server(st.seats, rules.initial),
               board + [Delivery(All, GameOver(GameOverMessage(rules, next)))])
        else
          Step(Server(st.seats, next), board)
  }

  /**
   * A move is broadcast exactly when its sender holds the seat whose turn it is and the engine
   * accepts it; every other request gets one `invalidMove` back, privately, and changes nothing.
   */
  lemma MoveAcceptedIff<P>(rules: Rules<P>, st: Server<P>, id: ConnId, mv: MoveRequest)
    ensures var r := Move(rules, st, id, mv);
      (exists d :: d in r.out && d.to == All) <==>
        MayMove(rules, st, id) && rules.tryMove(st.engine, mv).Accepted?
    ensures var r := Move(rules, st, id, mv);
      !(MayMove(rules, st, id) && rules.tryMove(st.engine, mv).Accepted?) ==>
        r.after == st && |r.out| == 1 && UnicastTo(r.out, id) && r.out[0].msg.InvalidMove?
  {
  }

  /**
   * The engine is consulted only on behalf of the occupant of the side to move: for anyone
   * else the outcome is the same whatever the engine would have said about the move.
   */
  lemma MoveIgnoresEngineUnlessTurnOwner<P>(rules: Rules<P>, st: Server<P>, id: ConnId,
                                            mv: MoveRequest,
                                            other: (P, MoveRequest) -> MoveOutcome<P>)
    requires !MayMove(rules, st, id)
    ensures Move(rules.(tryMove := other), st, id, mv) == Move(rules, st, id, mv)
  {
  }

  /**
   * With an engine in which an accepted move passes the turn, the position broadcast after a
   * move has the opponent of the mover to play, and a checkmate names the mover as winner.
   */
  lemma CheckmateNamesMover<P(!new)>(rules: Rules<P>, st: Server<P>, id: ConnId, mv: MoveRequest)
    requires TurnAlternates(rules)
    requires MayMove(rules, st, id) && rules.tryMove(st.engine, mv).Accepted?
    ensures var next := rules.tryMove(st.engine, mv).next;
      var mover := rules.turn(st.engine);
      st.seats.Occupant(mover) == Some(id) &&
      rules.turn(next) == Other(mover) &&
      (rules.isGameOver(next) && rules.isCheckmate(next) ==>
         Move(rules, st, id, mv).out[1].msg == GameOver("Checkmate! " + ColorName(mover) + " wins!")) &&
      (rules.isGameOver(next) && !rules.isCheckmate(next) ==>
         Move(rules, st, id, mv).out[1].msg == GameOver("Game drawn!"))
  {
  }
}
