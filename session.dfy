/**
 * Whole runs of the server. The transport is reduced to the list of live socket ids in
 * connection order: a connection appends a fresh id, a disconnection removes the id before the
 * handler runs, and events are handled one at a time.
 */
module Session {
  import opened Protocol
  import opened Engine
  import opened SeatRegistry
  import opened Coordinator

  datatype Event =
    | Connected(id: ConnId)
    | Disconnected(id: ConnId)
    | MoveRequested(id: ConnId, mv: MoveRequest)

  datatype World<P> = World(server: Server<P>, live: seq<ConnId>)

  function Start<P>(rules: Rules<P>): World<P>
  {
    World(Server(Empty, rules.initial), [])
  }

  /** The live list once `id` has gone, order kept. */
  function Without(live: seq<ConnId>, id: ConnId): (r: seq<ConnId>)
    ensures forall x :: x in r <==> x in live && x != id
  {
    if live == [] then []
    else if live[0] == id then Without(live[1..], id)
    else [live[0]] + Without(live[1..], id)
  }

  /**
   * One event through the transport and its handler. The transport never reports a connection
   * with an id that is still live, nor a disconnection or a move from an id that is not.
   */
  function Deliver<P>(rules: Rules<P>, w: World<P>, e: Event): (World<P>, seq<Delivery>)
  {
    match e
    case Connected(id) =>
      if id in w.live then (w, [])
      else
        var s := Connect(rules, w.server, id);
        (World(s.after, w.live + [id]), s.out)
    case Disconnected(id) =>
      if id !in w.live then (w, [])
      else
        var live := Without(w.live, id);
        var s := Disconnect(rules, w.server, id, live);
        (World(s.after, live), s.out)
    case MoveRequested(id, mv) =>
      if id !in w.live then (w, [])
      else
        var s := Move(rules, w.server, id, mv);
        (World(s.after, w.live), s.out)
  }

  function Run<P>(rules: Rules<P>, w: World<P>, events: seq<Event>): (World<P>, seq<Delivery>)
    decreases |events|
  {
    if events == [] then (w, [])
    else
      var (w1, out1) := Deliver(rules, w, events[0]);
      var (w2, out2) := Run(rules, w1, events[1..]);
      (w2, out1 + out2)
  }

  /** Both seats hold live connections, and no connection holds both. */
  ghost predicate Inv<P>(w: World<P>)
  {
    w.server.seats.Disjoint() &&
    (w.server.seats.white.Some? ==> w.server.seats.white.value in w.live) &&
    (w.server.seats.black.Some? ==> w.server.seats.black.value in w.live)
  }

  /** Every message addressed to one connection is addressed to a live one. */
  ghost predicate ToLive(out: seq<Delivery>, live: seq<ConnId>)
  {
    forall d :: d in out && d.to.To? ==> d.to.id in live
  }

  /** Each event keeps the invariant, and sends nothing privately to a departed connection. */
  lemma DeliverPreservesInv<P>(rules: Rules<P>, w: World<P>, e: Event)
    requires Inv(w)
    ensures Inv(Deliver(rules, w, e).0)
    ensures ToLive(Deliver(rules, w, e).1, Deliver(rules, w, e).0.live)
  {
  }

  /** The invariant holds along every run. */
  lemma {:induction false} RunPreservesInv<P>(rules: Rules<P>, w: World<P>, events: seq<Event>)
    requires Inv(w)
    ensures Inv(Run(rules, w, events).0)
    decreases |events|
  {
    if events != [] {
      DeliverPreservesInv(rules, w, events[0]);
      RunPreservesInv(rules, Deliver(rules, w, events[0]).0, events[1..]);
    }
  }

  lemma StartIsValid<P>(rules: Rules<P>)
    ensures Inv(Start(rules)) && Start(rules).server.seats == Empty
  {
  }

  /** Three connections in turn are told White, Black and Spectator, each with the position. */
  lemma ThreeConnections<P>(rules: Rules<P>, a: ConnId, b: ConnId, c: ConnId)
    requires a != b && b != c && a != c
    ensures var fen := rules.fen(rules.initial);
      Run(rules, Start(rules), [Connected(a), Connected(b), Connected(c)]) ==
        (World(Server(Seats(Some(a), Some(b)), rules.initial), [a, b, c]),
         Greeting(a, W, fen) + Greeting(b, B, fen) + Greeting(c, Spectator, fen))
  {
    var w1 := World(Server(Seats(Some(a), None), rules.initial), [a]);
    var w2 := World(Server(Seats(Some(a), Some(b)), rules.initial), [a, b]);
    var w3 := World(Server(Seats(Some(a), Some(b)), rules.initial), [a, b, c]);
    var fen := rules.fen(rules.initial);
    var events := [Connected(a), Connected(b), Connected(c)];
    assert [] + [a] == [a] && [a] + [b] == [a, b] && [a, b] + [c] == [a, b, c];
    assert Connect(rules, Start(rules).server, a) == Step(w1.server, Greeting(a, W, fen));
    assert Deliver(rules, Start(rules), Connected(a)) == (w1, Greeting(a, W, fen));
    assert Deliver(rules, w1, Connected(b)) == (w2, Greeting(b, B, fen));
    assert Deliver(rules, w2, Connected(c)) == (w3, Greeting(c, Spectator, fen));
    assert events[1..][1..][1..] == [];
    assert Run(rules, w2, events[1..][1..]) == (w3, Greeting(c, Spectator, fen) + []);
    assert Run(rules, w1, events[1..]) == (w3, Greeting(b, B, fen) + (Greeting(c, Spectator, fen) + []));
    assert Run(rules, Start(rules), events) ==
      (w3, Greeting(a, W, fen) + (Greeting(b, B, fen) + (Greeting(c, Spectator, fen) + [])));
    assert Greeting(a, W, fen) + (Greeting(b, B, fen) + (Greeting(c, Spectator, fen) + [])) ==
      Greeting(a, W, fen) + Greeting(b, B, fen) + Greeting(c, Spectator, fen);
  }

  /** When White leaves while Black and a spectator are connected, the spectator takes White. */
  lemma SpectatorTakesVacatedWhite<P>(rules: Rules<P>, p: P, a: ConnId, b: ConnId, c: ConnId)
    requires a != b && b != c && a != c
    ensures Deliver(rules, World(Server(Seats(Some(a), Some(b)), p), [a, b, c]), Disconnected(a)) ==
      (World(Server(Seats(Some(c), Some(b)), p), [b, c]), Greeting(c, W, rules.fen(p)))
  {
    assert [a, b, c][1..] == [b, c] && [b, c][1..] == [c] && [c][1..] == [];
    assert Without([c], a) == [c];
    assert Without([b, c], a) == [b, c];
    assert Without([a, b, c], a) == [b, c];
    assert Available([b, c], Seats(None, Some(b))) == [c];
  }
}
