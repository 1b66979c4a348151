/**
 * The chess rules engine (the chess.js `Chess` object) as an abstract collaborator.
 * A position is any type `P`; the engine is the record of operations the server calls on it.
 */
module Engine {
  import opened Protocol

  /** The inbound `move` payload; the server hands it to the engine without inspecting it. */
  datatype MoveRequest = MoveRequest(from: string, to: string, promotion: Option<string>)

  /**
   * What `chess.move(move)` does: returns a move and changes the position (Accepted),
   * returns a falsy value and changes nothing (Rejected), or throws an error with a message
   * and changes nothing (Fault).
   */
  datatype MoveOutcome<P> = Accepted(next: P) | Rejected | Fault(reason: string)

  datatype Rules<!P> = Rules(
    initial: P,                                     // the position `new Chess()` and `chess.reset()` give
    turn: P -> Color,                               // `chess.turn()`, 'w' or 'b'
    tryMove: (P, MoveRequest) -> MoveOutcome<P>,    // `chess.move(move)`
    isGameOver: P -> bool,                          // `chess.isGameOver()`
    isCheckmate: P -> bool,                         // `chess.isCheckmate()`
    fen: P -> string                                // `chess.fen()`
  )

  /** The one fact about chess the server's messages rely on: an accepted move passes the turn. */
  ghost predicate TurnAlternates<P(!new)>(rules: Rules<P>)
  {
    forall p: P, m: MoveRequest :: rules.tryMove(p, m).Accepted? ==>
      rules.turn(rules.tryMove(p, m).next) == Other(rules.turn(p))
  }
}
