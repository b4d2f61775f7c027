/** Messages the server sends to its clients. Nothing is sent in this model:
    every message is appended, in order, to a ghost event log, and the
    properties about what the players are told are stated over that log. */
module Messages {
  import opened GameFields

  /** The value carried by a message: a flag, a board as cell states, a board
      as the strings of the predefined layout, or a ship map, which is sent
      but not modelled. */
  datatype Payload = Flag(b: bool) | Board(cells: seq<Cell>) | TextBoard(text: seq<string>) | ShipMap

  /** One message `name` with `value`, sent to the client `to`. */
  datatype Event = Emit(to: string, name: string, value: Payload)

  /** Marks "no player yet" for the turn holder and the winner. */
  const NoPlayer: string := "none"

  /** Number of "it is your turn" messages in a stretch of the log. */
  ghost function TurnGrants(events: seq<Event>): nat {
    if events == [] then 0
    else TurnGrant(events[0]) + TurnGrants(events[1..])
  }

  function TurnGrant(e: Event): nat {
    if e.name == "isItMyTurn" && e.value == Flag(true) then 1 else 0
  }

  lemma {:induction false} TurnGrantsAppend(a: seq<Event>, b: seq<Event>)
    ensures TurnGrants(a + b) == TurnGrants(a) + TurnGrants(b)
  {
    if a == [] {
      assert a + b == b;
    } else {
      assert (a + b)[1..] == a[1..] + b;
      TurnGrantsAppend(a[1..], b);
    }
  }

  /** A stretch of the log without "isItMyTurn" messages grants no turn. */
  lemma {:induction false} NoTurnGrants(events: seq<Event>)
    requires forall i | 0 <= i < |events| :: events[i].name != "isItMyTurn"
    ensures TurnGrants(events) == 0
  {
    if events != [] {
      assert forall i | 0 <= i < |events| - 1 :: events[1..][i] == events[i + 1];
      NoTurnGrants(events[1..]);
    }
  }
}
