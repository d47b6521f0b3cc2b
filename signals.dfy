/** Vocabulary shared by both versions of the signalling gateway: identifiers,
    the room registry, and what a handler sends out. */
module Signals {

  /** A socket id, as socket.io assigns it. */
  type ClientId = string

  /** A room name, chosen by the client that joins it. */
  type RoomId = string

  /** A value the gateway forwards without looking inside it (a session
      description or an ICE candidate), kept in its serialised form. */
  type Blob = string

  /** The gateway's `rooms` registry: room name to the ids of its members. */
  type Rooms = map<RoomId, set<ClientId>>

  /** The argument list of one socket.io `emit`. */
  datatype Payload =
    | NoArgs                                          // emit('full'), emit('ready'), ...
    | Text(text: string)                              // a plain string argument
    | Data(data: Blob)                                // an opaque object, forwarded as is
    | Id(id: ClientId)                                // a single socket id
    | Ids(ids: set<ClientId>)                         // a list of socket ids
    | FromPeer(field: string, data: Blob, from: ClientId)  // `{ [field]: data, from }`

  /** One outgoing message: who receives it, the event name, and its argument. */
  datatype Emission = Emission(to: set<ClientId>, event: string, payload: Payload)

  /** The registry after a handler ran, together with what it sent, in order. */
  datatype Step = Step(rooms: Rooms, out: seq<Emission>)

  /** No room in the registry is empty. */
  predicate NoEmptyRoom(rooms: Rooms)
  {
    forall r :: r in rooms ==> rooms[r] != {}
  }

  /** The audience of `client.to(roomId)`: the sockets in the room except the
      sender itself; nobody when the room is unknown. */
  function Others(rooms: Rooms, roomId: RoomId, sender: ClientId): (rs: set<ClientId>)
    ensures sender !in rs
    ensures forall c :: c in rs <==> roomId in rooms && c in rooms[roomId] && c != sender
  {
    if roomId in rooms then rooms[roomId] - {sender} else {}
  }

  /** The registry after `client` disconnected: it is removed from every room
      holding it, a room that this leaves empty is deleted, and every other
      room is kept as it was. */
  function Depart(rooms: Rooms, client: ClientId): (m: Rooms)
    ensures forall r :: r in m ==> r in rooms && client !in m[r] && m[r] == rooms[r] - {client}
    ensures forall r :: r in rooms && client !in rooms[r] ==> r in m && m[r] == rooms[r]
    ensures forall r :: r in rooms && client in rooms[r] ==> (r in m <==> rooms[r] - {client} != {})
    ensures NoEmptyRoom(rooms) ==> NoEmptyRoom(m)
  {
    map r | r in rooms && (client !in rooms[r] || rooms[r] - {client} != {}) :: rooms[r] - {client}
  }

  /** The rooms whose remaining members are told that `client` left: those that
      held it and still hold someone else. */
  function Notified(rooms: Rooms, client: ClientId): set<RoomId>
  {
    set r | r in rooms && client in rooms[r] && rooms[r] - {client} != {}
  }

  /** A socket that is in no room leaves the registry as it was. */
  lemma DepartAbsent(rooms: Rooms, client: ClientId)
    requires forall r :: r in rooms ==> client !in rooms[r]
    ensures Depart(rooms, client) == rooms
  {
  }

  /** Adding a socket that is in no room to one room, then disconnecting it,
      gives back the registry it started from. */
  lemma DepartUndoesAdd(rooms: Rooms, client: ClientId, roomId: RoomId)
    requires NoEmptyRoom(rooms)
    requires forall r :: r in rooms ==> client !in rooms[r]
    ensures var before := if roomId in rooms then rooms[roomId] else {};
      Depart(rooms[roomId := before + {client}], client) == rooms
  {
    var before := if roomId in rooms then rooms[roomId] else {};
    var joined := rooms[roomId := before + {client}];
    var back := Depart(joined, client);
    assert (before + {client}) - {client} == before;
    assert back.Keys == rooms.Keys;
    forall r | r in back
      ensures back[r] == rooms[r]
    {
    }
  }

  /** The registry part way through the disconnect walk: the rooms in
      `pending` are not visited yet, every other room has been swept. */
  function Swept(start: Rooms, client: ClientId, pending: set<RoomId>): Rooms
  {
    map r | r in start && (r in pending || client !in start[r] || start[r] - {client} != {})
      :: if r in pending then start[r] else start[r] - {client}
  }

  lemma SweptNothing(start: Rooms, client: ClientId)
    ensures Swept(start, client, start.Keys) == start
  {
  }

  lemma SweptAll(start: Rooms, client: ClientId)
    ensures Swept(start, client, {}) == Depart(start, client)
  {
  }

  /** Visiting one more room changes only that room, exactly as one turn of
      the walk does. */
  lemma SweepStep(start: Rooms, client: ClientId, pending: set<RoomId>, r: RoomId)
    requires r in pending && pending <= start.Keys
    ensures var rooms, next := Swept(start, client, pending), Swept(start, client, pending - {r});
      r in rooms && rooms[r] == start[r] &&
      next == if client !in start[r] then rooms
              else if start[r] - {client} == {} then rooms - {r}
              else rooms[r := start[r] - {client}]
  {
    var rooms, next := Swept(start, client, pending), Swept(start, client, pending - {r});
    var expected := if client !in start[r] then rooms
                    else if start[r] - {client} == {} then rooms - {r}
                    else rooms[r := start[r] - {client}];
    assert next.Keys == expected.Keys;
    forall k | k in next
      ensures next[k] == expected[k]
    {
    }
  }

  /** The bookkeeping of the disconnect walk: `order` lists the rooms
      already told, without repetition, and `out` the `user-left` notices
      they were sent, each carrying `payload`. */
  ghost predicate Told(start: Rooms, client: ClientId, pending: set<RoomId>, out: seq<Emission>, order: seq<RoomId>, payload: Payload)
  {
    && |order| == |out|
    && (forall i :: 0 <= i < |order| ==>
          order[i] in start && order[i] !in pending &&
          out[i] == Emission(start[order[i]] - {client}, "user-left", payload))
    && (forall r :: r in order <==> r in Notified(start, client) && r !in pending)
    && (forall i, j :: 0 <= i < j < |order| ==> order[i] != order[j])
  }

  lemma TellOne(start: Rooms, client: ClientId, pending: set<RoomId>, out: seq<Emission>, order: seq<RoomId>, payload: Payload, r: RoomId)
    requires Told(start, client, pending, out, order, payload)
    requires r in pending && r in start && client in start[r] && start[r] - {client} != {}
    ensures Told(start, client, pending - {r}, out + [Emission(start[r] - {client}, "user-left", payload)], order + [r], payload)
  {
  }

  lemma TellNothing(start: Rooms, client: ClientId, pending: set<RoomId>, out: seq<Emission>, order: seq<RoomId>, payload: Payload, r: RoomId)
    requires Told(start, client, pending, out, order, payload)
    requires r in pending && r in start && (client !in start[r] || start[r] - {client} == {})
    ensures Told(start, client, pending - {r}, out, order, payload)
  {
  }
}
