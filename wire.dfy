/** Values exchanged between the call page, the browser's peer connection
    and the signaling relay, and the value the page observes of a peer
    connection. Media tracks, streams, session descriptions and
    network candidates are opaque to the signaling logic: only their identity
    matters, so each is a small record. */
module Wire {

  datatype Option<+T> = None | Some(value: T)

  /** A local media track (camera or microphone) of the local stream. */
  datatype Track = Track(id: string)

  /** A media stream announced by the remote side in a `track` event. */
  datatype Stream = Stream(id: string)

  /** The `type` of a session description: an offer or an answer in the
      offer/answer model of RFC 3264. */
  datatype SdpType = OfferSdp | AnswerSdp

  /** A session description; its SDP text is never inspected. */
  datatype Desc = Desc(kind: SdpType, sdp: string)

  /** A network path candidate; its text is never inspected. */
  datatype Cand = Cand(candidate: string)

  /** A message emitted on the relay socket. Every message names the room
      it is addressed to. */
  datatype Msg =
    | JoinRoom(room: string)
    | Offer(desc: Desc, room: string)
    | Answer(desc: Desc, room: string)
    | IceCandidate(cand: Cand, room: string)

  /** What the handlers can observe of one browser peer connection. */
  datatype PcView = PcView(
    tracks: seq<Track>,
    localDesc: Option<Desc>,
    remoteDesc: Option<Desc>,
    appliedCandidates: seq<Cand>,
    closed: bool)

  /** A connection as `new RTCPeerConnection` returns it, after the given
      tracks have been added to it in order. */
  function NewPc(tracks: seq<Track>): PcView
  {
    PcView(tracks, None, None, [], false)
  }
}
