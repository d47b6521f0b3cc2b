/** The signalling gateway the web client talks to (the compiled
    `WebRTCGateway` in the `webrtc` namespace): a registry of rooms of at most
    two sockets, and a relay of opaque negotiation messages between them. */
module DistGateway {
  import opened Signals

  /** A room holds at most this many sockets. */
  const Capacity: nat := 2

  /** Every room in the registry holds one or two sockets. */
  predicate Capped(rooms: Rooms)
  {
    forall r :: r in rooms ==> 1 <= |rooms[r]| <= Capacity
  }

  /** The text `test` answers are prefixed with. */
  const Prefix: string := "Server received: "

  function Reply(client: ClientId, event: string): Emission
  {
    Emission({client}, event, NoArgs)
  }

  /** What `join-room` does: a room that is absent is created, a room that
      already holds two sockets refuses the joiner with `full`, and otherwise
      the joiner is added and told `created` when it is alone in the room and
      `joined` when it is the second. */
  function Join(rooms: Rooms, client: ClientId, roomId: RoomId): (s: Step)
    // the joiner alone is answered, with exactly one message
    ensures |s.out| == 1 && s.out[0].to == {client} && s.out[0].payload == NoArgs
    ensures s.out[0].event in {"full", "created", "joined"}
    // a full room refuses, and nothing changes
    ensures roomId in rooms && |rooms[roomId]| >= Capacity ==>
              s.rooms == rooms && s.out[0].event == "full"
    // an absent room is created with the joiner as its only member
    ensures roomId !in rooms ==>
              s.rooms == rooms[roomId := {client}] && s.out[0].event == "created"
    // re-joining a room one is already alone in changes nothing and answers `created` again
    ensures roomId in rooms && rooms[roomId] == {client} ==>
              s.rooms == rooms && s.out[0].event == "created"
    // joining the one other member of a room makes a pair, and the joiner is not the initiator
    ensures roomId in rooms && |rooms[roomId]| == 1 && client !in rooms[roomId] ==>
              s.rooms == rooms[roomId := rooms[roomId] + {client}] &&
              |s.rooms[roomId]| == 2 && s.out[0].event == "joined"
    // only the joined room can change
    ensures s.rooms.Keys == rooms.Keys + {roomId}
    ensures forall r :: r in rooms && r != roomId ==> s.rooms[r] == rooms[r]
    ensures Capped(rooms) ==> Capped(s.rooms)
  {
    var room := if roomId in rooms then rooms[roomId] else {};
    if |room| >= Capacity then
      Step(rooms, [Reply(client, "full")])
    else
      var members := room + {client};
      assert client in room ==> members == room;
      Step(rooms[roomId := members], [Reply(client, if |members| == 1 then "created" else "joined")])
  }

  /** Disconnecting keeps every room within one to two members. */
  lemma DepartKeepsCapped(rooms: Rooms, client: ClientId)
    requires Capped(rooms)
    ensures Capped(Depart(rooms, client))
  {
    var m := Depart(rooms, client);
    forall r | r in m
      ensures 1 <= |m[r]| <= Capacity
    {
      assert m[r] <= rooms[r];
      assert m[r] != {};
    }
  }

  /** The events that change the registry. */
  datatype Event = JoinRoom(client: ClientId, roomId: RoomId) | Disconnect(client: ClientId)

  function Apply(rooms: Rooms, e: Event): Rooms
  {
    match e
    case JoinRoom(c, r) => Join(rooms, c, r).rooms
    case Disconnect(c) => Depart(rooms, c)
  }

  /** The registry after a run of events, in order. */
  function Replay(rooms: Rooms, events: seq<Event>): Rooms
    decreases |events|
  {
    if events == [] then rooms else Replay(Apply(rooms, events[0]), events[1..])
  }

  /** However clients join and leave, no room is ever empty and none ever
      holds more than two sockets. */
  lemma {:induction false} ReplayKeepsCapped(rooms: Rooms, events: seq<Event>)
    requires Capped(rooms)
    ensures Capped(Replay(rooms, events))
    decreases |events|
  {
    if events != [] {
      if events[0].Disconnect? {
        DepartKeepsCapped(rooms, events[0].client);
      }
      ReplayKeepsCapped(Apply(rooms, events[0]), events[1..]);
    }
  }

  /** A socket that is in no room, joins one and disconnects leaves the
      registry exactly as it found it. */
  lemma JoinThenDepart(rooms: Rooms, client: ClientId, roomId: RoomId)
    requires Capped(rooms)
    requires forall r :: r in rooms ==> client !in rooms[r]
    ensures Depart(Join(rooms, client, roomId).rooms, client) == rooms
  {
    if roomId in rooms && |rooms[roomId]| >= Capacity {
      DepartAbsent(rooms, client);
    } else {
      DepartUndoesAdd(rooms, client, roomId);
    }
  }

  /** The gateway object: its only state is the room registry. */
  class Gateway {
    var rooms: Rooms

    predicate Valid()
      reads this
    {
      Capped(rooms)
    }

    constructor ()
      ensures Valid() && rooms == map[]
    {
      rooms := map[];
    }

    /** `join-room`: returns the one message sent back to the joiner. */
    method HandleJoinRoom(client: ClientId, roomId: RoomId) returns (out: seq<Emission>)
      requires Valid()
      modifies this
      ensures Valid()
      ensures Step(rooms, out) == Join(old(rooms), client, roomId)
    {
      if roomId !in rooms {
        rooms := rooms[roomId := {}];
      }
      var room := rooms[roomId];
      if |room| >= Capacity {
        out := [Reply(client, "full")];
        return;
      }
      room := room + {client};
      rooms := rooms[roomId := room];
      if |room| == 1 {
        out := [Reply(client, "created")];
      } else {
        out := [Reply(client, "joined")];
      }
    }

    /** Disconnect: removes the socket from every room, deletes the rooms this
        empties and tells the survivors of every other affected room
        `user-left`, one message per room. The map is walked in an order the
        model leaves open; `order` names the rooms in the order they were told. */
    method HandleDisconnect(client: ClientId) returns (out: seq<Emission>, ghost order: seq<RoomId>)
      requires Valid()
      modifies this
      ensures Valid()
      ensures rooms == Depart(old(rooms), client)
      ensures |order| == |out|
      // each notice goes to exactly the sockets that stay in that room
      ensures forall i :: 0 <= i < |order| ==>
                order[i] in rooms && out[i] == Emission(rooms[order[i]], "user-left", NoArgs)
      ensures forall r :: r in order <==> r in Notified(old(rooms), client)
      ensures forall i, j :: 0 <= i < j < |order| ==> order[i] != order[j]
    {
      ghost var start := rooms;
      var pending := rooms.Keys;
      out, order := [], [];
      SweptNothing(start, client);
      while pending != {}
        invariant pending <= start.Keys
        invariant rooms == Swept(start, client, pending)
        invariant Told(start, client, pending, out, order, NoArgs)
        decreases pending
      {
        var r :| r in pending;
        SweepStep(start, client, pending, r);
        var members := rooms[r];
        if client in members {
          members := members - {client};
          if members == {} {
            rooms := rooms - {r};
            TellNothing(start, client, pending, out, order, NoArgs, r);
          } else {
            rooms := rooms[r := members];
            TellOne(start, client, pending, out, order, NoArgs, r);
            out := out + [Emission(members, "user-left", NoArgs)];
            order := order + [r];
          }
        } else {
          TellNothing(start, client, pending, out, order, NoArgs, r);
        }
        pending := pending - {r};
      }
      SweptAll(start, client);
      DepartKeepsCapped(start, client);
    }

    /** `ready`: passed on to the other sockets of the named room. */
    method HandleReady(client: ClientId, roomId: RoomId) returns (out: seq<Emission>)
      ensures |out| == 1 && out[0].event == "ready" && out[0].payload == NoArgs
      ensures client !in out[0].to
      ensures forall c :: c in out[0].to <==> roomId in rooms && c in rooms[roomId] && c != client
    {
      out := [Emission(Others(rooms, roomId, client), "ready", NoArgs)];
    }

    /** `offer`: its `offer` field is passed on unchanged to the other sockets of the room. */
    method HandleOffer(client: ClientId, roomId: RoomId, offer: Blob) returns (out: seq<Emission>)
      ensures |out| == 1 && out[0].event == "offer" && out[0].payload == Data(offer)
      ensures client !in out[0].to
      ensures forall c :: c in out[0].to <==> roomId in rooms && c in rooms[roomId] && c != client
    {
      out := [Emission(Others(rooms, roomId, client), "offer", Data(offer))];
    }

    /** `answer`: its `answer` field is passed on unchanged to the other sockets of the room. */
    method HandleAnswer(client: ClientId, roomId: RoomId, answer: Blob) returns (out: seq<Emission>)
      ensures |out| == 1 && out[0].event == "answer" && out[0].payload == Data(answer)
      ensures client !in out[0].to
      ensures forall c :: c in out[0].to <==> roomId in rooms && c in rooms[roomId] && c != client
    {
      out := [Emission(Others(rooms, roomId, client), "answer", Data(answer))];
    }

    /** `candidate`: its `candidate` field is passed on unchanged to the other sockets of the room. */
    method HandleIceCandidate(client: ClientId, roomId: RoomId, candidate: Blob) returns (out: seq<Emission>)
      ensures |out| == 1 && out[0].event == "candidate" && out[0].payload == Data(candidate)
      ensures client !in out[0].to
      ensures forall c :: c in out[0].to <==> roomId in rooms && c in rooms[roomId] && c != client
    {
      out := [Emission(Others(rooms, roomId, client), "candidate", Data(candidate))];
    }

    /** `test`: echoed back to the sender alone, prefixed. */
    method HandleTest(client: ClientId, message: string) returns (out: seq<Emission>)
      ensures |out| == 1 && out[0].to == {client} && out[0].event == "test-response"
      ensures out[0].payload.Text? && |out[0].payload.text| == |Prefix| + |message|
      ensures out[0].payload.text[..|Prefix|] == Prefix && out[0].payload.text[|Prefix|..] == message
    {
      out := [Emission({client}, "test-response", Text(Prefix + message))];
    }
  }
}
