# Video call signaling state machine

This project models the signaling core of the `VideoCall` page of a two-party
WebRTC video call. Two browsers meet in a named room on a socket.io relay and
exchange three kinds of message through it: a session offer, a session
answer and network path candidates. The page keeps a reference to one
`RTCPeerConnection`. Its handlers decide when that connection exists, what
is applied to it and which messages go out on the relay:

- `createPeerConnection`;
- the socket handlers for `joined`, `offer`, `answer` and `ice-candidate`;
- the connection's `onicecandidate` and `ontrack` hooks;
- the cleanup of the effect that registers the socket handlers;
- the `handleJoinRoom` and `initiateCall` button handlers.

The model has two layers.

- `SessionSpec` (session_spec.dfy) holds the page state as a value, `SessionView`,
  and has one pure transition function per handler. Each function's contract
  states what the handler promises. Each one also keeps the invariant
  `Coherent`: a live connection is open and carries exactly the tracks of the
  current local stream, in order, and every message sent names the room.
- `VideoCall.Session` (video_call.dfy) is the page as an object. Its fields are
  `localStream`, `isJoined`, `roomId`, `pc`, `remoteStream`, `handlersInstalled`
  and `outbox`. `pc` points to a `PeerConnections.PeerConnection` object, which
  is updated in place. Every method is proved to move `View()` exactly as the
  matching `SessionSpec` function says. Beside that, each method states the
  object facts: which connection is fresh, which one is closed, and which one
  is dropped while still open.

`Traces` (traces.dfy) runs whole event sequences. It proves that any run keeps
`Coherent` and only appends to the relay log. It proves that every message
sent was prompted by an event of its kind, so there are never more answers
than received offers. It proves that an unjoined page sends no offer. It also
proves a complete offer/answer exchange between two pages, candidates
included, in the order of RFC 3264, sections 5 to 7, and the join-before-media
scenario.

The outputs of `createOffer` and `createAnswer` are passed in as parameters
(`offer`, `answer`). The relay is the `outbox` sequence of messages the page
emitted. Media acquisition appears only as the track list handed to
`OnLocalStream`.

Where the intended design and the code differ, this model follows the code:

- Media that becomes ready after the `joined` confirmation does not create a
  connection. The effect re-run only cleans up and re-registers handlers. Such
  a page's Start Call sends nothing until a further `joined` confirmation or an
  inbound offer creates a connection (`Traces.JoinBeforeMedia`,
  `Traces.JoinBeforeMediaStillAnswers`, `Traces.JoinBeforeMediaCallsLater`).
- An offer that arrives with no connection and no local stream is neither
  buffered nor dropped quietly. The handler throws at `setRemoteDescription`
  on a null reference, and nothing changes (`SessionSpec.OnOffer` returns
  `Err(NullPeerConnection)`).
- `joined` always creates a new connection when there is a local stream. A
  connection that existed before is replaced without being closed
  (`VideoCall.Session.OnJoined`).
- The cleanup closes the connection and unregisters the handlers. It does not
  stop the local media tracks and does not clear the remote stream.
- Handlers are registered again every time the local stream changes, not once
  per session.

## Model

| member | source | states |
|---|---|---|
| SessionSpec.Mounted | vite-project/src/App.jsx:14-21 | The initial page is coherent, has handlers registered, no media, no connection, is not joined and has sent nothing |
| SessionSpec.CreatePeerConnection | vite-project/src/App.jsx:40-47 | Without a local stream nothing changes; with one, a fresh open connection with no descriptions or candidates holds exactly the stream's tracks in order; no other field changes; coherence is kept |
| SessionSpec.OnJoined | vite-project/src/App.jsx:61-65 | The page is joined afterwards and otherwise behaves as createPeerConnection; with media, a connection with no remote description is in place |
| SessionSpec.OnOffer | vite-project/src/App.jsx:67-73 | Fails exactly when there is neither a connection nor a local stream; otherwise the remote description is the offer, the local one the answer, and exactly one Answer(answer, room) is appended; a reused connection keeps its tracks and candidates, a lazily created one holds the stream's tracks; nothing else changes |
| SessionSpec.OnAnswer | vite-project/src/App.jsx:75-79 | With no connection nothing changes; otherwise only the connection's remote description changes, to the answer |
| SessionSpec.OnRemoteCandidate | vite-project/src/App.jsx:81-85 | With no connection the candidate is dropped and nothing changes; otherwise only the candidate is appended to the applied candidates |
| SessionSpec.OnLocalCandidate | vite-project/src/App.jsx:49-53 | A null candidate changes nothing; a candidate appends exactly IceCandidate(c, room) to the relay log; nothing else changes |
| SessionSpec.OnTrack | vite-project/src/App.jsx:55-58 | The remote stream becomes the event's first stream, or undefined if it has none; nothing else changes; a negotiated connection that receives a stream is connected |
| SessionSpec.Teardown | vite-project/src/App.jsx:87-96 | Afterwards there is no connection and no handler is registered; every other field, local media included, is unchanged |
| SessionSpec.LocalStreamChanged | vite-project/src/App.jsx:30 | A new local stream runs the cleanup and re-registers the handlers: the stream is stored, no connection remains, nothing else changes |
| SessionSpec.HandleJoinRoom | vite-project/src/App.jsx:99-101 | Appends exactly JoinRoom(room) and changes nothing else |
| SessionSpec.InitiateCall | vite-project/src/App.jsx:103-108 | With no connection nothing changes and nothing is sent; otherwise only the local description changes, to the offer, and exactly one Offer(offer, room) is appended |
| SessionSpec.TeardownIdempotent | vite-project/src/App.jsx:92-95 | A second cleanup changes nothing |
| PeerConnections.PeerConnection.constructor | vite-project/src/App.jsx:43 | A new connection has no tracks, no descriptions, no candidates and is open |
| PeerConnections.PeerConnection.AddTrack | vite-project/src/App.jsx:46 | Appends the track and changes nothing else |
| PeerConnections.PeerConnection.SetRemoteDescription | vite-project/src/App.jsx:69 | Sets the remote description and changes nothing else |
| PeerConnections.PeerConnection.SetLocalDescription | vite-project/src/App.jsx:71 | Sets the local description and changes nothing else |
| PeerConnections.PeerConnection.AddIceCandidate | vite-project/src/App.jsx:83 | Appends the candidate and changes nothing else |
| PeerConnections.PeerConnection.Close | vite-project/src/App.jsx:93 | Marks the connection closed and changes nothing else |
| VideoCall.AttachTracks | vite-project/src/App.jsx:45-47 | Adding the tracks one at a time leaves the connection's track list extended by exactly those tracks, in order, and nothing else changed |
| VideoCall.Session.constructor | vite-project/src/App.jsx:14-21 | The new page's view is the initial state |
| VideoCall.Session.CreatePeerConnection | vite-project/src/App.jsx:40-47 | The view moves as SessionSpec.CreatePeerConnection; with media the reference holds a freshly allocated connection, without media it is untouched |
| VideoCall.Session.OnJoined | vite-project/src/App.jsx:61-65 | The view moves as SessionSpec.OnJoined; with media the reference holds a fresh connection, without media it is the same reference, and a connection held before is left unchanged, and so still open |
| VideoCall.Session.OnOffer | vite-project/src/App.jsx:67-73 | Succeeds exactly when there was a connection or a local stream, the view then moving as SessionSpec.OnOffer; on failure nothing changes; an existing connection is reused, otherwise a fresh one is made |
| VideoCall.Session.OnAnswer | vite-project/src/App.jsx:75-79 | The view moves as SessionSpec.OnAnswer, and the reference still points to the same connection |
| VideoCall.Session.OnRemoteCandidate | vite-project/src/App.jsx:81-85 | The view moves as SessionSpec.OnRemoteCandidate, and the reference still points to the same connection |
| VideoCall.Session.OnLocalCandidate | vite-project/src/App.jsx:49-53 | The view moves as SessionSpec.OnLocalCandidate, and the reference still points to the same connection |
| VideoCall.Session.OnTrack | vite-project/src/App.jsx:55-58 | The view moves as SessionSpec.OnTrack, and the reference still points to the same connection |
| VideoCall.Session.Teardown | vite-project/src/App.jsx:87-96 | The view moves as SessionSpec.Teardown, and the connection the reference held is now closed with nothing else about it changed |
| VideoCall.Session.OnLocalStream | vite-project/src/App.jsx:97 | The view moves as SessionSpec.LocalStreamChanged, and the previous connection is closed |
| VideoCall.Session.HandleJoinRoom | vite-project/src/App.jsx:99-101 | The view moves as SessionSpec.HandleJoinRoom, and the reference still points to the same connection |
| VideoCall.Session.InitiateCall | vite-project/src/App.jsx:103-108 | The view moves as SessionSpec.InitiateCall, and the offer is set on the connection the reference already pointed to, which it still points to |
| VideoCall.CallThenLeave | vite-project/src/App.jsx:43-108 | For a page that gets media, joins, starts a call and is cleaned up, the connection `joined` created holds the local tracks and the offer, and is the one the cleanup closes |
| Traces.RunKeepsCoherent | vite-project/src/App.jsx:39-108 | After any sequence of events a coherent page stays coherent: a live connection is open and holds the current local tracks, and every message sent names the room |
| Traces.RunAppendOnly | vite-project/src/App.jsx:39-108 | After any sequence of events the earlier relay log is a prefix of the new one, the room is unchanged, and a joined page is still joined |
| Traces.StepSent | vite-project/src/App.jsx:49-108 | One event sends at most one message and only of the kind it prompts; a Join click always sends a join request; a page that is not joined sends no offer |
| Traces.RunSent | vite-project/src/App.jsx:49-108 | Over any run, messages of each kind are at most the events prompting them, so never more answers than received offers; join requests equal Join clicks; a page not joined at the end has sent no offer |
| Traces.Handshake | vite-project/src/App.jsx:49-85 | Two coherent pages in one room, the caller joined with a connection and the callee with media, exchange an offer, an answer and one candidate each through the relay. Both end connected, hold the same offer and answer in mirrored roles, and have applied each other's candidate. The relayed descriptions keep their offer and answer kinds |
| Traces.JoinBeforeMedia | vite-project/src/App.jsx:61-65 | A page joined before its media arrives has no connection once the media arrives, and Start Call then sends nothing |
| Traces.JoinBeforeMediaStillAnswers | vite-project/src/App.jsx:67-73 | That page still answers an inbound offer, on a connection created then with its local tracks |
| Traces.JoinBeforeMediaCallsLater | vite-project/src/App.jsx:61-73 | That page can call later. A further `joined` confirmation creates a connection with its local tracks, and so does an inbound offer; after either, Start Call sends exactly one offer |

## Left out

- Media acquisition with `getUserMedia` and its error logging is device I/O. Its result is only the track list given to `VideoCall.Session.OnLocalStream`.
- The socket.io client, the server URL and the STUN server configuration are network plumbing. The relay is the `outbox` log. Delivery between two pages appears only in `Traces.Handshake`, which relays each message by hand.
- The inside of `RTCPeerConnection` is browser code: SDP generation, ICE gathering, media transport and its own signaling-state checks. The outputs of `createOffer` and `createAnswer` are parameters, and description kinds are not checked, as the page does not check them.
- Each handler is one atomic step. Interleaving at the `await` points of the async handlers is event-loop concurrency and is not modelled, and neither is a handler that finishes after a cleanup.
- JSX rendering, the `srcObject` assignments and button styling are UI. The disabled Start Call button is modelled only as the `isJoined` guard in `Traces.Step`.
- React effect scheduling is modelled only as "cleanup, then register the handlers again" when the local stream changes. After the cleanup at unmount, `Traces.Step` ignores a new local stream, as React ignores that state update. Other React behaviour after unmount is not modelled.
- The `ontrack` and `onicecandidate` hooks of a connection that `joined` replaced without closing can still fire. The model lets these hooks run whatever the current connection is, but it does not track the replaced connections themselves.
