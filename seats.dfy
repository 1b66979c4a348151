/** The `players` object: who sits in the White seat and who in the Black seat. */
module SeatRegistry {
  import opened Protocol

  datatype Seats = Seats(white: Option<ConnId>, black: Option<ConnId>)
  {
    function Occupant(c: Color): Option<ConnId>
    {
      match c
      case White => white
      case Black => black
    }

    /** The seat `c` set to `v`: `players[c] = v`, or `delete players[c]` when `v` is None. */
    function With(c: Color, v: Option<ConnId>): (s: Seats)
      ensures s.Occupant(c) == v && s.Occupant(Other(c)) == Occupant(Other(c))
    {
      match c
      case White => this.(white := v)
      case Black => this.(black := v)
    }

    /** `Object.values(players).includes(id)`. */
    predicate Holds(id: ConnId)
    {
      white == Some(id) || black == Some(id)
    }

    /** The role the move handler attributes to `id`: White is tested before Black. */
    function RoleOf(id: ConnId): (r: Role)
      ensures r == W <==> white == Some(id)
      ensures r == Spectator <==> !Holds(id)
    {
      if white == Some(id) then W
      else if black == Some(id) then B
      else Spectator
    }

    /** The seat invariant: no connection occupies both seats. */
    predicate Disjoint()
    {
      !(white.Some? && white == black)
    }
  }

  const Empty := Seats(None, None)

  /**
   * `if (Object.values(players).every(v => !v)) players = {}`. Seats only ever hold
   * (truthy) connection ids, so the reset fires only when both seats are already vacant.
   */
  function ResetIfVacant(s: Seats): (r: Seats)
    ensures r == s
  {
    if s.white.None? && s.black.None? then Empty else s
  }

  /**
   * The `available` list of `assignNextPlayer`: the connected ids, in order, that hold no seat.
   */
  function Available(connected: seq<ConnId>, s: Seats): (r: seq<ConnId>)
    ensures |r| <= |connected|
    ensures forall x :: x in r <==> x in connected && !s.Holds(x)
    ensures r != [] ==> exists k :: 0 <= k < |connected| && connected[k] == r[0] &&
                          forall j :: 0 <= j < k ==> s.Holds(connected[j])
  {
    if connected == [] then []
    else
      var rest := Available(connected[1..], s);
      if s.Holds(connected[0]) then
        assert rest != [] ==> exists k :: 1 <= k < |connected| && connected[k] == rest[0] &&
                                forall j :: 0 <= j < k ==> s.Holds(connected[j]) by {
          if rest != [] {
            var k :| 0 <= k < |connected[1..]| && connected[1..][k] == rest[0] &&
                     forall j :: 0 <= j < k ==> s.Holds(connected[1..][j]);
            assert connected[k + 1] == rest[0];
            assert forall j :: 1 <= j < k + 1 ==> s.Holds(connected[j]) by {
              forall j | 1 <= j < k + 1 ensures s.Holds(connected[j]) {
                assert connected[j] == connected[1..][j - 1];
              }
            }
          }
        }
        rest
      else
        [connected[0]] + rest
  }
}
