/** The web page and the gateway it talks to, put together: two pages that
    join the same room negotiate a connection the way the protocol intends. */
module Handshake {
  import opened Optional
  import opened Signals
  import DistGateway
  import opened VideoCall

  /** Two connected pages join one room, one after the other, and every
      message is delivered where the gateway addresses it. The first page made
      the room and becomes the initiator; only it offers, only the second page
      answers, and each ends with the other's description applied. */
  method TwoPageHandshake(room: string, first: ClientId, second: ClientId,
                          offer: Blob, answer: Blob, isBlank: string -> bool)
    returns (initiator: ClientView, answerer: ClientView, delivered: seq<Emission>)
    requires first != second && !isBlank(room)
    // what the gateway sent, in order: each message to exactly one page
    ensures delivered == [Emission({first}, "created", NoArgs), Emission({second}, "joined", NoArgs),
                          Emission({first}, "ready", NoArgs), Emission({second}, "offer", Data(offer)),
                          Emission({first}, "answer", Data(answer))]
    ensures initiator.isInitiator && !answerer.isInitiator
    ensures initiator.isInCall && answerer.isInCall && !initiator.readyReceived
    ensures initiator.pc == Peer(Some(answer), []) && answerer.pc == Peer(Some(offer), [])
    ensures initiator.error == None && answerer.error == None
  {
    var gateway, a, b := Open(room);
    var met := Meet(gateway, a, b, room, first, second, isBlank);
    var negotiated := Negotiate(gateway, a, b, room, first, second, offer, answer);
    delivered := met + negotiated;
    initiator, answerer := a.View(), b.View();
  }

  /** A gateway with no rooms, and two freshly loaded pages whose sockets are
      connected and in which `room` has been typed. */
  method Open(room: string) returns (gateway: DistGateway.Gateway, a: Client, b: Client)
    ensures fresh(gateway) && fresh(a) && fresh(b) && a != b
    ensures gateway.Valid() && gateway.rooms == map[]
    ensures a.Valid() && b.Valid()
    ensures a.socketPresent && a.isSocketConnected && a.roomId == a.roomIdRef == room
    ensures b.socketPresent && b.isSocketConnected && b.roomId == b.roomIdRef == room
    ensures a.pc == b.pc == NoPeer && a.error == b.error == None && !a.readyReceived
  {
    gateway := new DistGateway.Gateway();
    a := new Client();
    b := new Client();
    // both sockets are up: the transport's `connect` handler has run
    a.socketPresent, a.isSocketConnected := true, true;
    b.socketPresent, b.isSocketConnected := true, true;
    a.SetRoomId(room);
    b.SetRoomId(room);
  }

  /** The first page joins and is told it created the room; the second joins,
      is told `joined` and announces `ready`, which reaches the first. */
  method Meet(gateway: DistGateway.Gateway, a: Client, b: Client, room: string,
              first: ClientId, second: ClientId, isBlank: string -> bool)
    returns (delivered: seq<Emission>)
    requires a != b && first != second && !isBlank(room)
    requires gateway.Valid() && gateway.rooms == map[]
    requires a.Valid() && b.Valid()
    requires a.socketPresent && a.isSocketConnected && a.roomId == a.roomIdRef == room
    requires b.socketPresent && b.isSocketConnected && b.roomId == b.roomIdRef == room
    requires a.pc == b.pc == NoPeer && a.error == b.error == None && !a.readyReceived
    modifies gateway, a, b
    ensures gateway.Valid() && gateway.rooms == map[room := {first, second}]
    ensures a.Valid() && a.isInitiator && a.readyReceived && a.isInCall
    ensures b.Valid() && !b.isInitiator && b.isInCall
    ensures a.roomIdRef == b.roomIdRef == room
    ensures a.pc == b.pc == NoPeer && a.error == b.error == None
    ensures delivered == [Emission({first}, "created", NoArgs), Emission({second}, "joined", NoArgs),
                          Emission({first}, "ready", NoArgs)]
  {
    var created := JoinFirst(gateway, a, room, first, isBlank);
    var joined, ready := JoinSecond(gateway, b, room, first, second, isBlank);
    a.OnReady();
    delivered := [created, joined, ready];
  }

  /** The first page into an empty registry: the room is created for it. */
  method JoinFirst(gateway: DistGateway.Gateway, a: Client, room: string, first: ClientId,
                   isBlank: string -> bool)
    returns (reply: Emission)
    requires !isBlank(room)
    requires gateway.Valid() && gateway.rooms == map[]
    requires a.Valid() && a.socketPresent && a.isSocketConnected && a.roomId == a.roomIdRef == room
    requires a.pc == NoPeer && a.error == None && !a.readyReceived
    modifies gateway, a
    ensures gateway.Valid() && gateway.rooms == map[room := {first}]
    ensures a.Valid() && a.isInitiator && a.initiatorRef && a.isInCall && !a.readyReceived
    ensures a.roomIdRef == room && a.pc == NoPeer && a.error == None
    ensures reply == Emission({first}, "created", NoArgs)
  {
    var sent := a.HandleJoinRoom(isBlank);
    assert sent == [JoinRoom(room)];
    var out := gateway.HandleJoinRoom(first, sent[0].roomId);
    reply := out[0];
    a.OnCreated();
  }

  /** The second page joins the first one's room, is told `joined` and sends
      `ready`, which the gateway passes to the first page alone. */
  method JoinSecond(gateway: DistGateway.Gateway, b: Client, room: string,
                    first: ClientId, second: ClientId, isBlank: string -> bool)
    returns (reply: Emission, ready: Emission)
    requires first != second && !isBlank(room)
    requires gateway.Valid() && gateway.rooms == map[room := {first}]
    requires b.Valid() && b.socketPresent && b.isSocketConnected && b.roomId == b.roomIdRef == room
    requires b.pc == NoPeer && b.error == None
    modifies gateway, b
    ensures gateway.Valid() && gateway.rooms == map[room := {first, second}]
    ensures b.Valid() && !b.isInitiator && b.isInCall
    ensures b.roomIdRef == room && b.pc == NoPeer && b.error == None
    ensures reply == Emission({second}, "joined", NoArgs)
    ensures ready == Emission({first}, "ready", NoArgs)
  {
    var sent := b.HandleJoinRoom(isBlank);
    assert sent == [JoinRoom(room)];
    var out := gateway.HandleJoinRoom(second, sent[0].roomId);
    reply := out[0];
    assert {first} + {second} == {first, second};
    assert gateway.rooms == map[room := {first, second}];
    sent := b.OnJoined();
    out := gateway.HandleReady(second, sent[0].roomId);
    assert out[0].to == {first};
    ready := out[0];
  }

  /** The initiator's effect creates the connection and offers; the other page
      answers; the answer reaches the initiator. */
  method Negotiate(gateway: DistGateway.Gateway, a: Client, b: Client, room: string,
                   first: ClientId, second: ClientId, offer: Blob, answer: Blob)
    returns (delivered: seq<Emission>)
    requires a != b && first != second
    requires gateway.Valid() && gateway.rooms == map[room := {first, second}]
    requires a.Valid() && a.isInitiator && a.readyReceived && a.isInCall
    requires b.Valid() && !b.isInitiator && b.isInCall
    requires a.roomIdRef == b.roomIdRef == room
    requires a.pc == b.pc == NoPeer && a.error == b.error == None
    modifies a, b
    ensures a.isInitiator && !b.isInitiator && a.isInCall && b.isInCall && !a.readyReceived
    ensures a.pc == Peer(Some(answer), []) && b.pc == Peer(Some(offer), [])
    ensures a.error == b.error == None
    ensures delivered == [Emission({second}, "offer", Data(offer)), Emission({first}, "answer", Data(answer))]
  {
    var sent := a.ReadyEffect(Some(offer));
    assert sent == [Offer(offer, room)];
    var out := gateway.HandleOffer(first, sent[0].roomId, sent[0].offer);
    assert out[0].to == {second};
    var offered := out[0];

    sent := b.OnOffer(out[0].payload.data, Some(answer));
    assert sent == [Answer(answer, room)];
    out := gateway.HandleAnswer(second, sent[0].roomId, sent[0].answer);
    assert out[0].to == {first};
    a.OnAnswer(out[0].payload.data, true);
    delivered := [offered, out[0]];
  }
}
