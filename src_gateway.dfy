/** The older signalling gateway in the TypeScript sources: rooms without a
    size limit, arrival announced to the others with `user-joined`, and
    negotiation messages addressed to one explicit peer and stamped with the
    sender's id. */
module SrcGateway {
  import opened Signals

  /** The ids listed to a joiner in `room-users`: the room's members except
      the joiner itself. */
  function RoomUsers(rooms: Rooms, roomId: RoomId, client: ClientId): (ids: set<ClientId>)
    requires roomId in rooms
    ensures client !in ids && ids <= rooms[roomId]
    ensures forall c :: c in rooms[roomId] && c != client ==> c in ids
  {
    set c | c in rooms[roomId] && c != client
  }

  /** What `join-room` does: the room is created if absent and the joiner is
      always added; the others hear `user-joined` with its id, and the joiner
      gets the list of the others. */
  function Join(rooms: Rooms, client: ClientId, roomId: RoomId): (s: Step)
    // no capacity limit: the joiner is always a member afterwards, and nobody else is added
    ensures roomId in s.rooms
    ensures s.rooms[roomId] == (if roomId in rooms then rooms[roomId] else {}) + {client}
    // only the joined room can change
    ensures s.rooms.Keys == rooms.Keys + {roomId}
    ensures forall r :: r in rooms && r != roomId ==> s.rooms[r] == rooms[r]
    ensures NoEmptyRoom(rooms) ==> NoEmptyRoom(s.rooms)
    // first `user-joined` to the other members, never to the joiner ...
    ensures |s.out| == 2
    ensures s.out[0].event == "user-joined" && s.out[0].payload == Id(client)
    ensures client !in s.out[0].to
    ensures forall c :: c in s.out[0].to <==> c in s.rooms[roomId] && c != client
    // ... then `room-users` to the joiner alone, listing exactly those same members
    ensures s.out[1].to == {client} && s.out[1].event == "room-users"
    ensures s.out[1].payload == Ids(s.out[0].to)
  {
    var members := (if roomId in rooms then rooms[roomId] else {}) + {client};
    var next := rooms[roomId := members];
    var users := RoomUsers(next, roomId, client);
    assert Others(next, roomId, client) == users;
    Step(next, [Emission(Others(next, roomId, client), "user-joined", Id(client)),
                Emission({client}, "room-users", Ids(users))])
  }

  /** The events that change the registry. */
  datatype Event = JoinRoom(client: ClientId, roomId: RoomId) | Disconnect(client: ClientId)

  function Apply(rooms: Rooms, e: Event): Rooms
  {
    match e
    case JoinRoom(c, r) => Join(rooms, c, r).rooms
    case Disconnect(c) => Depart(rooms, c)
  }

  /** The registry after a run of events, in order. */
  function Replay(rooms: Rooms, events: seq<Event>): Rooms
    decreases |events|
  {
    if events == [] then rooms else Replay(Apply(rooms, events[0]), events[1..])
  }

  /** However clients join and leave, no room in the registry is ever empty. */
  lemma {:induction false} ReplayKeepsNoEmptyRoom(rooms: Rooms, events: seq<Event>)
    requires NoEmptyRoom(rooms)
    ensures NoEmptyRoom(Replay(rooms, events))
    decreases |events|
  {
    if events != [] {
      ReplayKeepsNoEmptyRoom(Apply(rooms, events[0]), events[1..]);
    }
  }

  /** A socket that is in no room, joins one and disconnects leaves the
      registry exactly as it found it. */
  lemma JoinThenDepart(rooms: Rooms, client: ClientId, roomId: RoomId)
    requires NoEmptyRoom(rooms)
    requires forall r :: r in rooms ==> client !in rooms[r]
    ensures Depart(Join(rooms, client, roomId).rooms, client) == rooms
  {
    DepartUndoesAdd(rooms, client, roomId);
  }

  /** The gateway object: its only state is the room registry. */
  class Gateway {
    var rooms: Rooms

    predicate Valid()
      reads this
    {
      NoEmptyRoom(rooms)
    }

    constructor ()
      ensures Valid() && rooms == map[]
    {
      rooms := map[];
    }

    /** `join-room`: returns `user-joined` for the others, then `room-users`
        for the joiner. */
    method HandleJoinRoom(client: ClientId, roomId: RoomId) returns (out: seq<Emission>)
      requires Valid()
      modifies this
      ensures Valid()
      ensures Step(rooms, out) == Join(old(rooms), client, roomId)
    {
      if roomId !in rooms {
        rooms := rooms[roomId := {}];
      }
      rooms := rooms[roomId := rooms[roomId] + {client}];
      out := [Emission(Others(rooms, roomId, client), "user-joined", Id(client))];
      var usersInRoom := RoomUsers(rooms, roomId, client);
      out := out + [Emission({client}, "room-users", Ids(usersInRoom))];
    }

    /** Disconnect: removes the socket from every room, deletes the rooms this
        empties and sends `user-left` with the departed id to every other
        affected room, one message per room. The map is walked in an order the
        model leaves open; `order` names the rooms in the order they were told. */
    method HandleDisconnect(client: ClientId) returns (out: seq<Emission>, ghost order: seq<RoomId>)
      requires Valid()
      modifies this
      ensures Valid()
      ensures rooms == Depart(old(rooms), client)
      ensures |order| == |out|
      // each notice names the departed socket and goes to exactly the sockets that stay in that room
      ensures forall i :: 0 <= i < |order| ==>
                order[i] in rooms && out[i] == Emission(rooms[order[i]], "user-left", Id(client))
      ensures forall r :: r in order <==> r in Notified(old(rooms), client)
      ensures forall i, j :: 0 <= i < j < |order| ==> order[i] != order[j]
    {
      ghost var start := rooms;
      var pending := rooms.Keys;
      out, order := [], [];
      SweptNothing(start, client);
      while pending != {}
        invariant pending <= start.Keys
        invariant rooms == Swept(start, client, pending)
        invariant Told(start, client, pending, out, order, Id(client))
        decreases pending
      {
        var r :| r in pending;
        SweepStep(start, client, pending, r);
        var members := rooms[r];
        if client in members {
          members := members - {client};
          if members == {} {
            rooms := rooms - {r};
            TellNothing(start, client, pending, out, order, Id(client), r);
          } else {
            rooms := rooms[r := members];
            TellOne(start, client, pending, out, order, Id(client), r);
            out := out + [Emission(members, "user-left", Id(client))];
            order := order + [r];
          }
        } else {
          TellNothing(start, client, pending, out, order, Id(client), r);
        }
        pending := pending - {r};
      }
      SweptAll(start, client);
    }

    /** `offer`: sent to `target` alone as `{ offer, from }`, the offer unchanged. */
    method HandleOffer(client: ClientId, target: ClientId, offer: Blob) returns (out: seq<Emission>)
      ensures |out| == 1 && out[0].to == {target} && out[0].event == "offer"
      ensures out[0].payload.FromPeer? && out[0].payload.field == "offer"
      ensures out[0].payload.data == offer && out[0].payload.from == client
    {
      out := [Emission({target}, "offer", FromPeer("offer", offer, client))];
    }

    /** `answer`: sent to `target` alone as `{ answer, from }`, the answer unchanged. */
    method HandleAnswer(client: ClientId, target: ClientId, answer: Blob) returns (out: seq<Emission>)
      ensures |out| == 1 && out[0].to == {target} && out[0].event == "answer"
      ensures out[0].payload.FromPeer? && out[0].payload.field == "answer"
      ensures out[0].payload.data == answer && out[0].payload.from == client
    {
      out := [Emission({target}, "answer", FromPeer("answer", answer, client))];
    }

    /** `ice-candidate`: sent to `target` alone as `{ candidate, from }`, the candidate unchanged. */
    method HandleIceCandidate(client: ClientId, target: ClientId, candidate: Blob) returns (out: seq<Emission>)
      ensures |out| == 1 && out[0].to == {target} && out[0].event == "ice-candidate"
      ensures out[0].payload.FromPeer? && out[0].payload.field == "candidate"
      ensures out[0].payload.data == candidate && out[0].payload.from == client
    {
      out := [Emission({target}, "ice-candidate", FromPeer("candidate", candidate, client))];
    }
  }
}
