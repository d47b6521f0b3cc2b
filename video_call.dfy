/** The video-call page's side of the signalling protocol. The first socket
    in a room is told `created` and becomes the initiator; the second is told
    `joined` and announces itself with `ready`. Only the initiator acts on
    `ready`: it creates the peer connection and sends the offer. Only the
    other side answers an offer. The browser's peer connection and media
    stream are reduced to what the protocol observes of them. */
module VideoCall {
  import opened Optional
  import Signals

  type Blob = Signals.Blob

  /** One media track of the local stream, with its `enabled` flag. */
  datatype Track = NoTrack | Track(enabled: bool)

  /** The local media stream: its first audio and its first video track. */
  datatype Stream = Stream(audio: Track, video: Track)

  /** `peerConnectionRef.current`: either none, or a connection with the remote
      description applied to it so far and the remote ICE candidates handed
      to it, in order. */
  datatype Peer = NoPeer | Peer(remote: Option<Blob>, candidates: seq<Blob>)

  /** The error banner's messages. */
  datatype Notice =
    | RoomNameRequired
    | SocketNotConnected
    | RoomFull
    | OfferFailed
    | OfferHandlingFailed
    | AnswerFailed
    | PeerLeft

  /** What the page sends to the gateway. */
  datatype Outgoing =
    | JoinRoom(roomId: string)
    | Ready(roomId: string)
    | Offer(offer: Blob, roomId: string)
    | Answer(answer: Blob, roomId: string)

  /** Every offer in `sent` was sent as initiator, every answer as the other side. */
  predicate RoleRespected(sent: seq<Outgoing>, initiator: bool)
  {
    forall i :: 0 <= i < |sent| ==>
      (sent[i].Offer? ==> initiator) && (sent[i].Answer? ==> !initiator)
  }

  /** The outcome of the checks at the start of `handleJoinRoom`. */
  datatype JoinCheck = MissingRoomName | NotConnected | CanJoin

  /** The checks of `handleJoinRoom`, in their order: a room name that is
      empty once trimmed is refused first, then a socket that is missing or
      not connected. */
  function CheckJoin(roomIdBlank: bool, socketPresent: bool, connected: bool): (c: JoinCheck)
    ensures c == CanJoin <==> !roomIdBlank && socketPresent && connected
    ensures c == MissingRoomName <==> roomIdBlank
    ensures c == NotConnected <==> !roomIdBlank && (!socketPresent || !connected)
  {
    if roomIdBlank then MissingRoomName
    else if !socketPresent || !connected then NotConnected
    else CanJoin
  }

  /** Everything the page's handlers read or change, in one value. */
  datatype ClientView = ClientView(
    socketPresent: bool, isSocketConnected: bool,
    roomId: string, roomIdRef: string,
    isInitiator: bool, initiatorRef: bool,
    isInCall: bool, readyReceived: bool,
    pc: Peer, stream: Option<Stream>,
    isMuted: bool, isVideoOff: bool,
    error: Option<Notice>)

  class Client {
    // the socket and its connection flag, set by the transport's own handlers
    var socketPresent: bool
    var isSocketConnected: bool
    // the room name typed in, and the ref the socket handlers read it from
    var roomId: string
    var roomIdRef: string
    // the role, kept twice: as React state (read by the effect) and as a ref (read by the handlers)
    var isInitiator: bool
    var initiatorRef: bool
    var isInCall: bool
    var readyReceived: bool
    var pc: Peer
    var stream: Option<Stream>
    var isMuted: bool
    var isVideoOff: bool
    var error: Option<Notice>

    function View(): ClientView
      reads this
    {
      ClientView(socketPresent, isSocketConnected, roomId, roomIdRef, isInitiator, initiatorRef,
                 isInCall, readyReceived, pc, stream, isMuted, isVideoOff, error)
    }

    /** The role state and the role ref always agree. */
    predicate Valid()
      reads this
    {
      isInitiator == initiatorRef
    }

    /** The page as first rendered. */
    constructor ()
      ensures Valid()
      ensures View() == ClientView(false, false, "", "", false, false, false, false,
                                   NoPeer, None, false, false, None)
    {
      socketPresent, isSocketConnected := false, false;
      roomId, roomIdRef := "", "";
      isInitiator, initiatorRef := false, false;
      isInCall, readyReceived := false, false;
      pc, stream := NoPeer, None;
      isMuted, isVideoOff := false, false;
      error := None;
    }

    /** Typing a room name: the state changes and the effect copies it into the ref. */
    method SetRoomId(value: string)
      requires Valid()
      modifies this
      ensures Valid()
      ensures View() == old(View()).(roomId := value, roomIdRef := value)
    {
      roomId := value;
      roomIdRef := value;
    }

    /** `handleJoinRoom`. `isBlank` says whether a string is empty once
        trimmed. Refused: an error, nothing sent, nothing else changed.
        Otherwise the untrimmed name goes into the ref and into `join-room`,
        and the page is in the call. */
    method HandleJoinRoom(isBlank: string -> bool) returns (sent: seq<Outgoing>)
      requires Valid()
      modifies this
      ensures Valid()
      ensures var check := CheckJoin(isBlank(old(roomId)), old(socketPresent), old(isSocketConnected));
        match check
        case MissingRoomName =>
          sent == [] && View() == old(View()).(error := Some(RoomNameRequired))
        case NotConnected =>
          sent == [] && View() == old(View()).(error := Some(SocketNotConnected))
        case CanJoin =>
          sent == [JoinRoom(old(roomId))] &&
          View() == old(View()).(roomIdRef := old(roomId), isInCall := true)
    {
      var check := CheckJoin(isBlank(roomId), socketPresent, isSocketConnected);
      if check == MissingRoomName {
        error := Some(RoomNameRequired);
        sent := [];
        return;
      }
      if check == NotConnected {
        error := Some(SocketNotConnected);
        sent := [];
        return;
      }
      roomIdRef := roomId;
      sent := [JoinRoom(roomId)];
      isInCall := true;
    }

    /** `created`: this page made the room and is the initiator. */
    method OnCreated()
      requires Valid()
      modifies this
      ensures Valid() && isInitiator
      ensures View() == old(View()).(isInitiator := true, initiatorRef := true)
    {
      isInitiator := true;
      initiatorRef := true;
    }

    /** `joined`: this page is the second in the room, so not the initiator,
        and it tells the room it is `ready`. */
    method OnJoined() returns (sent: seq<Outgoing>)
      requires Valid()
      modifies this
      ensures Valid() && !isInitiator
      ensures View() == old(View()).(isInitiator := false, initiatorRef := false)
      ensures sent == [Ready(roomIdRef)]
    {
      isInitiator := false;
      initiatorRef := false;
      sent := [Ready(roomIdRef)];
    }

    /** `full`: the room already has two members. */
    method OnFull()
      requires Valid()
      modifies this
      ensures Valid()
      ensures View() == old(View()).(error := Some(RoomFull))
    {
      error := Some(RoomFull);
    }

    /** `ready`: noted only by the initiator; the other side ignores it. */
    method OnReady()
      requires Valid()
      modifies this
      ensures Valid()
      ensures View() == if old(initiatorRef) then old(View()).(readyReceived := true) else old(View())
    {
      if initiatorRef {
        readyReceived := true;
      }
    }

    /** `createPeerConnection`: a fresh connection, and, for the initiator
        only, the offer. `offer` is what creating and applying the local
        description gave, or `None` when that failed. */
    method CreatePeerConnection(offer: Option<Blob>) returns (sent: seq<Outgoing>)
      requires Valid()
      modifies this
      ensures Valid()
      ensures RoleRespected(sent, isInitiator)
      ensures !old(initiatorRef) ==> sent == [] && View() == old(View()).(pc := Peer(None, []))
      ensures old(initiatorRef) && offer.Some? ==>
                sent == [Offer(offer.value, roomIdRef)] && View() == old(View()).(pc := Peer(None, []))
      ensures old(initiatorRef) && offer.None? ==>
                sent == [] && View() == old(View()).(pc := Peer(None, []), error := Some(OfferFailed))
    {
      pc := Peer(None, []);
      sent := [];
      if initiatorRef {
        match offer
        case Some(description) =>
          sent := [Offer(description, roomIdRef)];
        case None =>
          error := Some(OfferFailed);
      }
    }

    /** The effect that runs when the role, `readyReceived` or `isInCall`
        change: an initiator in a call that has heard `ready` creates the
        peer connection (and so sends the offer), then clears the flag. */
    method ReadyEffect(offer: Option<Blob>) returns (sent: seq<Outgoing>)
      requires Valid()
      modifies this
      ensures Valid()
      ensures RoleRespected(sent, isInitiator)
      ensures !(old(isInitiator) && old(readyReceived) && old(isInCall)) ==>
                sent == [] && View() == old(View())
      ensures old(isInitiator) && old(readyReceived) && old(isInCall) ==>
                !readyReceived && pc == Peer(None, []) &&
                sent == (if offer.Some? then [Offer(offer.value, roomIdRef)] else []) &&
                View() == old(View()).(pc := Peer(None, []), readyReceived := false,
                                       error := if offer.Some? then old(error) else Some(OfferFailed))
    {
      sent := [];
      if isInitiator && readyReceived && isInCall {
        sent := CreatePeerConnection(offer);
        readyReceived := false;
      }
    }

    /** `offer`: the initiator ignores it; the other side creates its peer
        connection, applies the offer and sends back an answer. `answer` is
        what creating and applying the answer gave, or `None` when a step of
        that failed. */
    method OnOffer(offer: Blob, answer: Option<Blob>) returns (sent: seq<Outgoing>)
      requires Valid()
      modifies this
      ensures Valid()
      ensures RoleRespected(sent, isInitiator)
      ensures old(initiatorRef) ==> sent == [] && View() == old(View())
      ensures !old(initiatorRef) && answer.Some? ==>
                sent == [Answer(answer.value, roomIdRef)] &&
                View() == old(View()).(pc := Peer(Some(offer), []))
      ensures !old(initiatorRef) && answer.None? ==>
                sent == [] && View() == old(View()).(pc := Peer(None, []), error := Some(OfferHandlingFailed))
    {
      sent := [];
      if !initiatorRef {
        // not the initiator, so creating the connection sends no offer
        var noOffer := CreatePeerConnection(None);
        match answer
        case Some(description) =>
          pc := pc.(remote := Some(offer));
          sent := [Answer(description, roomIdRef)];
        case None =>
          error := Some(OfferHandlingFailed);
      }
    }

    /** `answer`: applied only by an initiator that has a peer connection.
        `accepted` says whether the connection took it. */
    method OnAnswer(answer: Blob, accepted: bool)
      requires Valid()
      modifies this
      ensures Valid()
      ensures !(old(initiatorRef) && old(pc).Peer?) ==> View() == old(View())
      ensures old(initiatorRef) && old(pc).Peer? && accepted ==>
                View() == old(View()).(pc := old(pc).(remote := Some(answer)))
      ensures old(initiatorRef) && old(pc).Peer? && !accepted ==>
                View() == old(View()).(error := Some(AnswerFailed))
    {
      if initiatorRef && pc.Peer? {
        if accepted {
          pc := pc.(remote := Some(answer));
        } else {
          error := Some(AnswerFailed);
        }
      }
    }

    /** `candidate`: handed to the peer connection when there is one, dropped otherwise. */
    method OnCandidate(candidate: Blob)
      requires Valid()
      modifies this
      ensures Valid()
      ensures old(pc).NoPeer? ==> View() == old(View())
      ensures old(pc).Peer? ==>
                View() == old(View()).(pc := old(pc).(candidates := old(pc).candidates + [candidate]))
    {
      if pc.Peer? {
        pc := pc.(candidates := pc.candidates + [candidate]);
      }
    }

    /** `user-left`: the peer connection is closed and dropped, and the page says so. */
    method OnUserLeft()
      requires Valid()
      modifies this
      ensures Valid()
      ensures View() == old(View()).(pc := NoPeer, error := Some(PeerLeft))
    {
      pc := NoPeer;
      error := Some(PeerLeft);
    }

    /** The local stream has been obtained from the browser. */
    method MediaAcquired(local: Stream)
      requires Valid()
      modifies this
      ensures Valid()
      ensures View() == old(View()).(stream := Some(local))
    {
      stream := Some(local);
    }

    /** `toggleMute`: flips the audio track's `enabled` flag and the displayed
        mute state together; without a stream or an audio track, nothing. */
    method ToggleMute()
      requires Valid()
      modifies this
      ensures Valid()
      ensures old(stream).Some? && old(stream).value.audio.Track? ==>
                stream.Some? && stream.value.audio.Track? &&
                stream.value.audio.enabled == !old(stream).value.audio.enabled &&
                View() == old(View()).(stream := Some(old(stream).value.(audio := stream.value.audio)),
                                       isMuted := !old(isMuted))
      ensures !(old(stream).Some? && old(stream).value.audio.Track?) ==> View() == old(View())
    {
      if stream.Some? {
        var audioTrack := stream.value.audio;
        if audioTrack.Track? {
          stream := Some(stream.value.(audio := Track(!audioTrack.enabled)));
          isMuted := !isMuted;
        }
      }
    }

    /** `toggleVideo`: flips the video track's `enabled` flag and the displayed
        camera-off state together; without a stream or a video track, nothing. */
    method ToggleVideo()
      requires Valid()
      modifies this
      ensures Valid()
      ensures old(stream).Some? && old(stream).value.video.Track? ==>
                stream.Some? && stream.value.video.Track? &&
                stream.value.video.enabled == !old(stream).value.video.enabled &&
                View() == old(View()).(stream := Some(old(stream).value.(video := stream.value.video)),
                                       isVideoOff := !old(isVideoOff))
      ensures !(old(stream).Some? && old(stream).value.video.Track?) ==> View() == old(View())
    {
      if stream.Some? {
        var videoTrack := stream.value.video;
        if videoTrack.Track? {
          stream := Some(stream.value.(video := Track(!videoTrack.enabled)));
          isVideoOff := !isVideoOff;
        }
      }
    }
  }
}
