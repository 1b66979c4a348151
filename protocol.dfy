/** Identities, colours and the messages the server exchanges with its sockets. */
module Protocol {

  /** A socket id. socket.io never issues an empty one, so every id is truthy in JavaScript. */
  type ConnId = s: string | s != "" witness "socket"

  datatype Option<+T> = None | Some(value: T)

  datatype Color = White | Black

  function Other(c: Color): (o: Color)
    ensures o != c
  {
    match c
    case White => Black
    case Black => White
  }

  /** The colour as the game-over text spells it. */
  function ColorName(c: Color): string
  {
    match c
    case White => "White"
    case Black => "Black"
  }

  /** The roles a connection is told it has; on the wire these are "W", "B" and "Spectator". */
  datatype Role = W | B | Spectator

  function SeatRole(c: Color): (r: Role)
    ensures r != Spectator
  {
    match c
    case White => W
    case Black => B
  }

  /** Outbound events: `playerRole`, `boardState`, `invalidMove` and `gameOver`. */
  datatype Msg =
    | PlayerRole(role: Role)
    | BoardState(fen: string)
    | InvalidMove(reason: string)
    | GameOver(message: string)

  /** `socket.emit` / `io.to(id).emit` address one connection; `io.emit` addresses every connection. */
  datatype Recipient = To(id: ConnId) | All

  datatype Delivery = Delivery(to: Recipient, msg: Msg)

  /** Every delivery in `out` is addressed to the single connection `id`. */
  predicate UnicastTo(out: seq<Delivery>, id: ConnId)
  {
    forall d :: d in out ==> d.to == To(id)
  }
}
