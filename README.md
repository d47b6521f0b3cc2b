# WebRTC signalling relay and its clients, in Dafny

This project models the signalling core of a small video-call application:

- **The signalling gateway**, in two versions. The room registry is an
  in-memory map from a room name to the set of socket ids in it.
  - The compiled gateway in `backend/dist` is the one the web page talks to
    (module `DistGateway`). It allows rooms of at most two sockets and
    answers a join with `full`, `created` or `joined`. It passes `ready`,
    `offer`, `answer` and `candidate` to the other sockets of the room, and
    it echoes `test`.
  - The older TypeScript gateway in `backend/src` (module `SrcGateway`). Its
    rooms have no size limit. A join is announced to the others with
    `user-joined`, and the joiner gets `room-users`. Negotiation messages go
    to one explicit target and carry the sender's id in `from`.

  Each version is a class whose `rooms` field the handlers update in place.
  The disconnect handler walks the registry in a loop, as the source's
  `forEach` does. Every handler returns what it sends, as a list of
  `Emission(recipients, event, payload)`. The handlers that only relay
  messages read `rooms` and leave it alone. Module `Signals` holds what the
  two versions share: the registry type, the audience of `client.to(room)`
  (the room's members minus the sender), and the effect of a disconnect on
  the registry.
- **The authentication slice** of the web client (module `AuthSlice`). It is
  a class holding the slice's state (`user`, `token`, `isAuthenticated`)
  and a field standing for the browser's `localStorage["token"]`. Its three
  reducers are modelled, along with its initial state and its three
  selectors.
- **The video-call page's role protocol** (module `VideoCall`). It is a class
  holding the page's React state and refs. The first page in a room becomes
  the initiator and the second does not. Only the initiator acts on
  `ready`, creates the peer connection and offers; only the other page
  answers. Module `Handshake` connects two such pages through the compiled
  gateway and follows one complete negotiation.

## Model

| member | source | states |
|---|---|---|
| Signals.Others | backend/dist/webrtc/webrtc.gateway.js:80 | the audience of `client.to(room)` is exactly the room's members other than the sender, and nobody when the room is unknown |
| Signals.Depart | backend/dist/webrtc/webrtc.gateway.js:28-41 | after a disconnect the socket is in no room; a room it leaves empty is gone; a room that held it and keeps members keeps exactly the others; a room without it is unchanged; no room becomes empty |
| Signals.DepartAbsent | backend/dist/webrtc/webrtc.gateway.js:28-29 | a socket that is in no room leaves the registry unchanged when it disconnects |
| Signals.DepartUndoesAdd | backend/src/webrtc/webrtc.gateway.ts:26-35 | adding a socket that is in no room to one room and then disconnecting it gives back the original registry |
| DistGateway.Join | backend/dist/webrtc/webrtc.gateway.js:43-70 | the joiner alone gets exactly one message. A room of two or more answers `full` and nothing changes. An absent room is created with the joiner alone and answers `created`. A socket that re-joins a room where it is alone changes nothing and gets `created` again. Joining a room with one other member makes a pair and answers `joined`. Only the joined room can change, and the one-to-two bound is kept |
| DistGateway.DepartKeepsCapped | backend/dist/webrtc/webrtc.gateway.js:28-35 | a disconnect keeps every room at one or two members |
| DistGateway.ReplayKeepsCapped | backend/dist/webrtc/webrtc.gateway.js:32-34 | after any sequence of joins and disconnects, starting from a registry within the bound, every room has one or two members |
| DistGateway.JoinThenDepart | backend/dist/webrtc/webrtc.gateway.js:26-70 | a socket that is in no room, joins any room and disconnects leaves the registry exactly as it found it, whether the room was full or not |
| DistGateway.Gateway.constructor | backend/dist/webrtc/webrtc.gateway.js:17-20 | the registry starts empty |
| DistGateway.Gateway.HandleJoinRoom | backend/dist/webrtc/webrtc.gateway.js:43-70 | the new registry and the reply are those `Join` describes, and the bound is kept |
| DistGateway.Gateway.HandleDisconnect | backend/dist/webrtc/webrtc.gateway.js:26-42 | the registry becomes `Depart` of the old one. Exactly the rooms that held the socket and keep someone are told `user-left`, one message each, and each message goes to exactly the sockets still in that room |
| DistGateway.Gateway.HandleReady | backend/dist/webrtc/webrtc.gateway.js:71-82 | one `ready` message, to exactly the other sockets of the named room, never to the sender |
| DistGateway.Gateway.HandleOffer | backend/dist/webrtc/webrtc.gateway.js:83-94 | one `offer` message carrying the offer unchanged, to exactly the other sockets of the room, never to the sender |
| DistGateway.Gateway.HandleAnswer | backend/dist/webrtc/webrtc.gateway.js:95-98 | one `answer` message carrying the answer unchanged, to exactly the other sockets of the room, never to the sender |
| DistGateway.Gateway.HandleIceCandidate | backend/dist/webrtc/webrtc.gateway.js:99-102 | one `candidate` message carrying the candidate unchanged, to exactly the other sockets of the room, never to the sender |
| DistGateway.Gateway.HandleTest | backend/dist/webrtc/webrtc.gateway.js:103-106 | one `test-response` to the sender alone, whose text is `Server received: ` followed by the message; the registry is not touched |
| SrcGateway.RoomUsers | backend/src/webrtc/webrtc.gateway.ts:50-52 | the `room-users` list is exactly the room's members other than the joiner |
| SrcGateway.Join | backend/src/webrtc/webrtc.gateway.ts:39-53 | the room is created if absent and always gains the joiner, with no limit. Only that room changes, and no room becomes empty. `user-joined` with the joiner's id goes to exactly the other members, never the joiner. Then `room-users` goes to the joiner alone and lists exactly those same members |
| SrcGateway.ReplayKeepsNoEmptyRoom | backend/src/webrtc/webrtc.gateway.ts:29-31 | after any sequence of joins and disconnects no room in the registry is empty |
| SrcGateway.JoinThenDepart | backend/src/webrtc/webrtc.gateway.ts:23-53 | a socket that is in no room, joins one and disconnects leaves the registry exactly as it found it |
| SrcGateway.Gateway.constructor | backend/src/webrtc/webrtc.gateway.ts:17 | the registry starts empty |
| SrcGateway.Gateway.HandleJoinRoom | backend/src/webrtc/webrtc.gateway.ts:39-53 | the new registry and the two messages are those `Join` describes, and no room is empty |
| SrcGateway.Gateway.HandleDisconnect | backend/src/webrtc/webrtc.gateway.ts:23-36 | the registry becomes `Depart` of the old one. Exactly the rooms that held the socket and keep someone get `user-left` carrying the departed id, one message each, to exactly the sockets still in that room |
| SrcGateway.Gateway.HandleOffer | backend/src/webrtc/webrtc.gateway.ts:55-61 | one `offer` to the target alone as `{ offer, from }`, with the offer unchanged and `from` the sender; the registry is not touched |
| SrcGateway.Gateway.HandleAnswer | backend/src/webrtc/webrtc.gateway.ts:63-69 | one `answer` to the target alone as `{ answer, from }`, with the answer unchanged and `from` the sender; the registry is not touched |
| SrcGateway.Gateway.HandleIceCandidate | backend/src/webrtc/webrtc.gateway.ts:71-77 | one `ice-candidate` to the target alone as `{ candidate, from }`, with the candidate unchanged and `from` the sender; the registry is not touched |
| AuthSlice.Store.constructor | frontend/src/store/authSlice.ts:17-27 | the initial state has no user, the stored token (`null` when there is none), and is authenticated exactly when that token is a non-empty string |
| AuthSlice.Store.SetCredentials | frontend/src/store/authSlice.ts:33-41 | user and token come from the payload as they are, `null` and `undefined` included; the slice is authenticated even for an empty or missing token; storage holds the token converted to a string (`"null"` for `null`, `"undefined"` for `undefined`) |
| AuthSlice.Store.Logout | frontend/src/store/authSlice.ts:42-49 | user and token are cleared, the slice is not authenticated, and the stored token is removed |
| AuthSlice.Store.InitializeAuth | frontend/src/store/authSlice.ts:50-57 | the token is the stored one, the slice is authenticated exactly when that token is a non-empty string, the user is kept, and storage is unchanged; a string token already in the state is left as it is, because the store keeps it in storage |
| AuthSlice.InitializeAfterCredentials | frontend/src/store/authSlice.ts:33-67 | `initializeAuth` dispatched in the same session after `setCredentials` keeps the user and reads the token back as its stored text: a string token unchanged, a missing one as `"null"` or `"undefined"`. The selectors then report that user, and the slice is authenticated exactly when the text is non-empty, so a missing token still counts as logged in |
| AuthSlice.ReloadAfterCredentials | frontend/src/store/authSlice.ts:23-41 | a page reload after `setCredentials` rebuilds the initial state from storage: no user, the stored token text, authenticated exactly when it is non-empty. A string token comes back unchanged; an `undefined` one, as after registering, comes back as `"undefined"` and counts as logged in |
| AuthSlice.LogoutIsIdempotent | frontend/src/store/authSlice.ts:42-67 | a second `logout` finds and leaves the logged-out state, with nothing stored; the selectors then report a `null` token and not authenticated |
| AuthSlice.InitializeAuthOnLoad | frontend/src/store/authSlice.ts:23-27 | on a freshly loaded page the state has no user, the stored token or `null`, is authenticated exactly when the stored token is non-empty, and `initializeAuth` changes nothing |
| VideoCall.CheckJoin | frontend/src/pages/VideoCall.tsx:398-411 | a blank room name is refused first. Otherwise a missing or unconnected socket is refused. Joining goes ahead exactly when neither applies |
| VideoCall.Client.constructor | frontend/src/pages/VideoCall.tsx:35-51 | the page starts disconnected, with an empty room name, no role, out of a call, with no peer connection and no stream, unmuted and with no error |
| VideoCall.Client.SetRoomId | frontend/src/pages/VideoCall.tsx:383-385 | typing a room name sets the state and the ref to it, and nothing else |
| VideoCall.Client.HandleJoinRoom | frontend/src/pages/VideoCall.tsx:398-429 | a blank name or an unconnected socket sets its error, sends nothing and changes nothing else, `isInCall` included. Otherwise the untrimmed name goes into the ref and into the one `join-room` sent, and the page is in the call |
| VideoCall.Client.OnCreated | frontend/src/pages/VideoCall.tsx:254-259 | the page becomes the initiator, in state and ref, and nothing else changes |
| VideoCall.Client.OnJoined | frontend/src/pages/VideoCall.tsx:261-268 | the page becomes the non-initiator and sends one `ready` naming the room in the ref |
| VideoCall.Client.OnFull | frontend/src/pages/VideoCall.tsx:270-273 | only the room-full error is set |
| VideoCall.Client.OnReady | frontend/src/pages/VideoCall.tsx:275-290 | `readyReceived` is set when the page is the initiator; otherwise nothing changes |
| VideoCall.Client.CreatePeerConnection | frontend/src/pages/VideoCall.tsx:101-201 | a fresh peer connection is stored. Only an initiator sends an offer, naming the room in the ref. A failed offer only sets its error |
| VideoCall.Client.ReadyEffect | frontend/src/pages/VideoCall.tsx:388-396 | only when the page is initiator, has heard `ready` and is in the call does it create the peer connection (and offer); `readyReceived` is then cleared. Otherwise nothing changes |
| VideoCall.Client.OnOffer | frontend/src/pages/VideoCall.tsx:292-327 | an initiator ignores an offer. Otherwise the page creates a peer connection, applies the offer and sends one `answer` naming the room in the ref; a failure sets its error and sends nothing. Offers come only from initiators and answers only from the other side |
| VideoCall.Client.OnAnswer | frontend/src/pages/VideoCall.tsx:329-343 | an answer is applied only by an initiator that has a peer connection; a rejected one only sets its error |
| VideoCall.Client.OnCandidate | frontend/src/pages/VideoCall.tsx:345-353 | a candidate is appended to the peer connection's list when there is one, and dropped otherwise |
| VideoCall.Client.OnUserLeft | frontend/src/pages/VideoCall.tsx:355-365 | the peer connection is dropped and the peer-left error is shown, and nothing else changes |
| VideoCall.Client.MediaAcquired | frontend/src/pages/VideoCall.tsx:60 | the local stream is recorded, and nothing else changes |
| VideoCall.Client.ToggleMute | frontend/src/pages/VideoCall.tsx:431-439 | with an audio track, the track's `enabled` flag and the displayed mute state both flip, and nothing else changes; without a stream or an audio track nothing changes |
| VideoCall.Client.ToggleVideo | frontend/src/pages/VideoCall.tsx:441-449 | with a video track, the track's `enabled` flag and the displayed camera-off state both flip, and nothing else changes; without a stream or a video track nothing changes |
| Handshake.Open | frontend/src/pages/VideoCall.tsx:35-51 | a gateway with no rooms and two fresh, distinct pages with connected sockets, the room name typed in, no peer connection and no error |
| Handshake.TwoPageHandshake | frontend/src/pages/VideoCall.tsx:254-343 | two connected pages joining one room through the compiled gateway get, in order, `created` to the first, `joined` to the second, `ready` to the first, the offer to the second and the answer to the first, each to that page alone; they end with the first as the only initiator, both in the call, the flag cleared, each peer connection holding the other side's description, and no error |
| Handshake.Meet | backend/dist/webrtc/webrtc.gateway.js:43-82 | the gateway sends `created` to the first socket, `joined` to the second and passes `ready` to the first alone; the room then holds both sockets, the first page is the initiator and has heard `ready`, and the second is not the initiator |
| Handshake.JoinFirst | backend/dist/webrtc/webrtc.gateway.js:46-65 | the first page, joining an empty registry, is sent `created` alone and becomes the initiator of a room holding only it |
| Handshake.JoinSecond | backend/dist/webrtc/webrtc.gateway.js:58-82 | the second page is sent `joined` alone and becomes the non-initiator, and the `ready` it sends is passed to the first socket alone |
| Handshake.Negotiate | frontend/src/pages/VideoCall.tsx:174-201 | the initiator's offer is passed unchanged to the other page alone, whose answer is passed unchanged to the initiator alone, and each side ends with the other's description applied |

## Left out

- Transport: the socket.io connection, the `webrtc` namespace, CORS, ping timers and reconnection are not modelled. On the page, `socketPresent` and `isSocketConnected` are set directly, in place of the transport's `connect`/`disconnect` handlers. `handleConnection` only logs.
- Logging: every `Logger` and `console` call, and the log-only lists of other clients in `handleReady` and `handleOffer`.
- Socket.io rooms: delivery to `client.to(room)` is computed from the gateway's own registry. The model assumes the socket.io side and the registry agree. `server.to(target)` reaches exactly the socket named `target`.
- Order: JavaScript's `Map.forEach` visits rooms in insertion order. The disconnect loop visits them in an order the model leaves open, and the ghost `order` output says which room each notice went to. The `room-users` list is a set, not an array in insertion order.
- Browser APIs: `RTCPeerConnection`, `getUserMedia`, ICE/STUN and the video elements are reduced to what the protocol sees. The outcome of creating an offer or answer, and whether an answer is accepted, are parameters. Promise chains are collapsed into one step, and `initializeMedia` is reduced to recording the stream (`MediaAcquired`).
- Adding local tracks to a new peer connection, `onicecandidate` (the sending of local candidates), the connection-state callbacks, `ontrack` and `handleEndCall` depend on browser events and are not modelled.
- Whitespace: `trim()` is a caller-supplied predicate, `isBlank`, not JavaScript's whitespace rules.
- VideoCall.Client.OnOffer: when the chain fails after the offer was applied, the model records a fresh connection without the offer. The part of the chain that succeeded is not recorded.
- The `try`/`catch` around `emit("join-room")` is not modelled, because an emit on a connected socket does not throw here.
- AuthSlice.Store.SetCredentials: the payload is not checked, so a user or token of any other type is not modelled; only a string, `null` and `undefined` are.
- AuthSlice.SelectCurrentUser, AuthSlice.SelectIsAuthenticated, AuthSlice.SelectToken: no contract of their own, since each one's whole body is a field read. What they return after each reducer is stated by the scenario methods.
- Outside the signalling core, none of these is modelled:
  - the login and registration service (password hashing and tokens) and the user schema;
  - bootstrap (`main`), the HTTP client's interceptors and the build configuration;
  - the other pages and components.
