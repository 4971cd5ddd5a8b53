/** The signaling state machine of the video call page as pure functions on
    a value view of the page's state. There is one transition per handler of
    the page: the socket handlers (`joined`, `offer`, `answer`,
    `ice-candidate`), the two hooks installed on a peer connection
    (`onicecandidate`, `ontrack`), the effect cleanup, and the two button
    handlers. The imperative model in module VideoCall is proved to move its
    state exactly as these functions say. */
module SessionSpec {
  import opened Wire

  /** The page's state: its React state (`localStream`, `remoteStream`,
      `isJoined`, `roomId`), the peer connection reference, whether the
      socket handlers are registered, and the messages emitted so far. */
  datatype SessionView = SessionView(
    localStream: Option<seq<Track>>,
    isJoined: bool,
    roomId: string,
    pc: Option<PcView>,
    remoteStream: Option<Stream>,
    handlersInstalled: bool,
    outbox: seq<Msg>)

  /** Why an `offer` handler fails: the connection reference is still null
      when `setRemoteDescription` is called on it. */
  datatype Fault = NullPeerConnection

  datatype Result<T> = Ok(value: T) | Err(fault: Fault)

  /** The room identifier the page starts with and never changes. */
  const DefaultRoom: string := "abcd"

  /** The invariant of every reachable state: a live connection is open and
      carries exactly the tracks of the current local stream, in order; and
      every message emitted names the session's room. */
  predicate Coherent(s: SessionView)
  {
    (s.pc.Some? ==>
       s.localStream.Some? && s.pc.value.tracks == s.localStream.value && !s.pc.value.closed) &&
    (forall m :: m in s.outbox ==> m.room == s.roomId)
  }

  /** Both descriptions are in place and remote media has been observed. */
  predicate Connected(s: SessionView)
  {
    s.pc.Some? && s.pc.value.localDesc.Some? && s.pc.value.remoteDesc.Some? && s.remoteStream.Some?
  }

  /** The state once the page has rendered and its signaling effect has run
      for the first time: no media yet, not joined, handlers registered. */
  function Mounted(): (s: SessionView)
    ensures Coherent(s)
    ensures s.handlersInstalled && s.pc.None? && s.localStream.None? && !s.isJoined && s.outbox == []
  {
    SessionView(None, false, DefaultRoom, None, None, true, [])
  }

  /** `createPeerConnection`: without a local stream nothing happens; with
      one, a fresh connection replaces the reference (an existing one is
      dropped, not closed) and receives the stream's tracks in order. */
  function CreatePeerConnection(s: SessionView): (r: SessionView)
    ensures s.localStream.None? ==> r == s
    ensures s.localStream.Some? ==>
              r.pc.Some? && r.pc.value.tracks == s.localStream.value &&
              r.pc.value.localDesc.None? && r.pc.value.remoteDesc.None? &&
              r.pc.value.appliedCandidates == [] && !r.pc.value.closed
    ensures r.(pc := s.pc) == s
    ensures Coherent(s) ==> Coherent(r)
  {
    match s.localStream
    case None => s
    case Some(tracks) => s.(pc := Some(NewPc(tracks)))
  }

  /** The `joined` handler: marks the page joined, then creates a connection
      whenever there is a local stream, even if one exists already. */
  function OnJoined(s: SessionView): (r: SessionView)
    ensures r.isJoined
    ensures r == CreatePeerConnection(s).(isJoined := true)
    ensures s.localStream.Some? ==> r.pc.Some? && r.pc.value.remoteDesc.None?
    ensures Coherent(s) ==> Coherent(r)
  {
    CreatePeerConnection(s.(isJoined := true))
  }

  /** The `offer` handler: creates a connection if there is none, applies the
      offer as remote description, applies the created answer as local
      description and emits it. With neither a connection nor a local stream
      it fails before changing anything. */
  function OnOffer(s: SessionView, offer: Desc, answer: Desc): (r: Result<SessionView>)
    ensures r.Err? <==> s.pc.None? && s.localStream.None?
    ensures r.Ok? ==>
              r.value.pc.Some? &&
              r.value.pc.value.remoteDesc == Some(offer) &&
              r.value.pc.value.localDesc == Some(answer) &&
              r.value.outbox == s.outbox + [Answer(answer, s.roomId)] &&
              r.value.(pc := s.pc, outbox := s.outbox) == s
    ensures r.Ok? && s.pc.Some? ==>
              r.value.pc.value.(localDesc := s.pc.value.localDesc,
                                remoteDesc := s.pc.value.remoteDesc) == s.pc.value
    ensures r.Ok? && s.pc.None? ==>
              r.value.pc.value.tracks == s.localStream.value &&
              r.value.pc.value.appliedCandidates == [] && !r.value.pc.value.closed
    ensures r.Ok? && Coherent(s) ==> Coherent(r.value)
  {
    var t := if s.pc.None? then CreatePeerConnection(s) else s;
    match t.pc
    case None => Err(NullPeerConnection)
    case Some(p) =>
      Ok(t.(pc := Some(p.(remoteDesc := Some(offer), localDesc := Some(answer))),
            outbox := t.outbox + [Answer(answer, t.roomId)]))
  }

  /** The `answer` handler: applies the answer as remote description when a
      connection exists; a stale answer is dropped. */
  function OnAnswer(s: SessionView, answer: Desc): (r: SessionView)
    ensures s.pc.None? ==> r == s
    ensures s.pc.Some? ==>
              r.pc.Some? && r.pc.value.remoteDesc == Some(answer) &&
              r.pc.value.(remoteDesc := s.pc.value.remoteDesc) == s.pc.value
    ensures r.(pc := s.pc) == s
    ensures Coherent(s) ==> Coherent(r)
  {
    match s.pc
    case None => s
    case Some(p) => s.(pc := Some(p.(remoteDesc := Some(answer))))
  }

  /** The `ice-candidate` handler: applies the candidate when a connection
      exists; otherwise the candidate is lost. */
  function OnRemoteCandidate(s: SessionView, c: Cand): (r: SessionView)
    ensures s.pc.None? ==> r == s
    ensures s.pc.Some? ==>
              r.pc.Some? && r.pc.value.appliedCandidates == s.pc.value.appliedCandidates + [c] &&
              r.pc.value.(appliedCandidates := s.pc.value.appliedCandidates) == s.pc.value
    ensures r.(pc := s.pc) == s
    ensures Coherent(s) ==> Coherent(r)
  {
    match s.pc
    case None => s
    case Some(p) => s.(pc := Some(p.(appliedCandidates := p.appliedCandidates + [c])))
  }

  /** A connection's `onicecandidate` hook: forwards a discovered candidate
      to the room; the end-of-candidates event (no candidate) sends nothing. */
  function OnLocalCandidate(s: SessionView, c: Option<Cand>): (r: SessionView)
    ensures c.None? ==> r == s
    ensures c.Some? ==> r.outbox == s.outbox + [IceCandidate(c.value, s.roomId)]
    ensures r.(outbox := s.outbox) == s
    ensures Coherent(s) ==> Coherent(r)
  {
    match c
    case None => s
    case Some(cand) => s.(outbox := s.outbox + [IceCandidate(cand, s.roomId)])
  }

  /** A connection's `ontrack` hook: the first stream of the event becomes
      the remote stream; an event with no stream leaves it undefined. */
  function OnTrack(s: SessionView, streams: seq<Stream>): (r: SessionView)
    ensures |streams| > 0 ==> r.remoteStream == Some(streams[0])
    ensures streams == [] ==> r.remoteStream.None?
    ensures r.(remoteStream := s.remoteStream) == s
    ensures s.pc.Some? && s.pc.value.localDesc.Some? && s.pc.value.remoteDesc.Some? && streams != [] ==>
              Connected(r)
    ensures Coherent(s) ==> Coherent(r)
  {
    s.(remoteStream := if streams == [] then None else Some(streams[0]))
  }

  /** The effect cleanup: unregisters the four socket handlers, then closes
      and forgets the connection. Local media and the remote stream are kept. */
  function Teardown(s: SessionView): (r: SessionView)
    ensures r.pc.None? && !r.handlersInstalled
    ensures r.(pc := s.pc, handlersInstalled := s.handlersInstalled) == s
    ensures Coherent(s) ==> Coherent(r)
  {
    s.(pc := None, handlersInstalled := false)
  }

  /** A new local stream: React re-runs the signaling effect, so the cleanup
      runs and the handlers are registered again. No connection is created. */
  function LocalStreamChanged(s: SessionView, tracks: seq<Track>): (r: SessionView)
    ensures r.localStream == Some(tracks) && r.pc.None? && r.handlersInstalled
    ensures r.(localStream := s.localStream, pc := s.pc, handlersInstalled := s.handlersInstalled) == s
    ensures Coherent(s) ==> Coherent(r)
  {
    Teardown(s.(localStream := Some(tracks))).(handlersInstalled := true)
  }

  /** `handleJoinRoom`: asks the relay to join the room. */
  function HandleJoinRoom(s: SessionView): (r: SessionView)
    ensures r.outbox == s.outbox + [JoinRoom(s.roomId)]
    ensures r.(outbox := s.outbox) == s
    ensures Coherent(s) ==> Coherent(r)
  {
    s.(outbox := s.outbox + [JoinRoom(s.roomId)])
  }

  /** `initiateCall`: without a connection nothing happens; otherwise the
      created offer becomes the local description and is emitted. */
  function InitiateCall(s: SessionView, offer: Desc): (r: SessionView)
    ensures s.pc.None? ==> r == s
    ensures s.pc.Some? ==>
              r.pc.Some? && r.pc.value.localDesc == Some(offer) &&
              r.pc.value.(localDesc := s.pc.value.localDesc) == s.pc.value &&
              r.outbox == s.outbox + [Offer(offer, s.roomId)]
    ensures r.(pc := s.pc, outbox := s.outbox) == s
    ensures Coherent(s) ==> Coherent(r)
  {
    match s.pc
    case None => s
    case Some(p) =>
      s.(pc := Some(p.(localDesc := Some(offer))), outbox := s.outbox + [Offer(offer, s.roomId)])
  }

  /** Running the cleanup twice is the same as running it once. */
  lemma TeardownIdempotent(s: SessionView)
    ensures Teardown(Teardown(s)) == Teardown(s)
  {
  }
}
