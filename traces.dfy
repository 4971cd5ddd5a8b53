/** Whole runs of the page: a run is a sequence of events, each handled
    atomically by the matching transition of SessionSpec. The lemmas here
    state what holds after any run: the invariant is kept, the relay log is
    only ever appended to, and every message sent was prompted by an event
    of the right kind. Two scenarios follow: a complete offer/answer
    exchange between two pages, and a page that joins before its media is
    ready. */
module Traces {
  import opened Wire
  import opened SessionSpec

  /** Everything that can happen to the page. Socket events reach it only
      while its handlers are registered; the two button clicks and the
      connection's hooks reach it at any time, except that Start Call is a
      disabled button until the page has joined. */
  datatype Event =
    | LocalMedia(tracks: seq<Track>)
    | RecvJoined
    | RecvOffer(offer: Desc, answer: Desc)
    | RecvAnswer(answer: Desc)
    | RecvCandidate(cand: Cand)
    | IceGathered(found: Option<Cand>)
    | RemoteTrack(streams: seq<Stream>)
    | Unmount
    | ClickJoin
    | ClickStartCall(offer: Desc)

  /** One event, handled to completion. An `offer` handler that throws
      leaves the state as it was. The handlers are unregistered only by the
      cleanup at unmount, after which React ignores a new local stream, so
      that event changes nothing then either. */
  function Step(s: SessionView, e: Event): SessionView
  {
    match e
    case LocalMedia(tracks) => if s.handlersInstalled then LocalStreamChanged(s, tracks) else s
    case RecvJoined => if s.handlersInstalled then OnJoined(s) else s
    case RecvOffer(offer, answer) =>
      if !s.handlersInstalled then s
      else (match OnOffer(s, offer, answer)
            case Ok(t) => t
            case Err(_) => s)
    case RecvAnswer(answer) => if s.handlersInstalled then OnAnswer(s, answer) else s
    case RecvCandidate(c) => if s.handlersInstalled then OnRemoteCandidate(s, c) else s
    case IceGathered(c) => OnLocalCandidate(s, c)
    case RemoteTrack(streams) => OnTrack(s, streams)
    case Unmount => Teardown(s)
    case ClickJoin => HandleJoinRoom(s)
    case ClickStartCall(offer) => if s.isJoined then InitiateCall(s, offer) else s
  }

  function Run(s: SessionView, evs: seq<Event>): SessionView
    decreases |evs|
  {
    if evs == [] then s else Run(Step(s, evs[0]), evs[1..])
  }

  function Last(ms: seq<Msg>): Msg
    requires ms != []
  {
    ms[|ms| - 1]
  }

  function LastCand(cs: seq<Cand>): Cand
    requires cs != []
  {
    cs[|cs| - 1]
  }

  /** Every run keeps the invariant: a live connection is open and carries
      the current local tracks, and every message names the room. */
  lemma {:induction false} RunKeepsCoherent(s: SessionView, evs: seq<Event>)
    requires Coherent(s)
    ensures Coherent(Run(s, evs))
    decreases |evs|
  {
    if evs != [] {
      RunKeepsCoherent(Step(s, evs[0]), evs[1..]);
    }
  }

  /** Messages once emitted are never withdrawn, the room never changes, and
      a page that has joined stays joined. */
  lemma {:induction false} RunAppendOnly(s: SessionView, evs: seq<Event>)
    ensures s.outbox <= Run(s, evs).outbox
    ensures Run(s, evs).roomId == s.roomId
    ensures s.isJoined ==> Run(s, evs).isJoined
    decreases |evs|
  {
    if evs != [] {
      RunAppendOnly(Step(s, evs[0]), evs[1..]);
    }
  }

  datatype MsgKind = JoinKind | OfferKind | AnswerKind | CandidateKind

  function KindOf(m: Msg): MsgKind
  {
    match m
    case JoinRoom(_) => JoinKind
    case Offer(_, _) => OfferKind
    case Answer(_, _) => AnswerKind
    case IceCandidate(_, _) => CandidateKind
  }

  /** How many messages of kind `k` the log holds. */
  function Sent(ms: seq<Msg>, k: MsgKind): nat
    decreases |ms|
  {
    if ms == [] then 0
    else Sent(ms[..|ms| - 1], k) + (if KindOf(ms[|ms| - 1]) == k then 1 else 0)
  }

  /** The event that may make the page send a message of kind `k`: a Join
      click, a Start Call click, an inbound offer, a discovered candidate. */
  predicate Prompts(e: Event, k: MsgKind)
  {
    match e
    case ClickJoin => k == JoinKind
    case ClickStartCall(_) => k == OfferKind
    case RecvOffer(_, _) => k == AnswerKind
    case IceGathered(c) => k == CandidateKind && c.Some?
    case _ => false
  }

  /** How many events of the run may prompt a message of kind `k`. */
  function Prompted(evs: seq<Event>, k: MsgKind): nat
    decreases |evs|
  {
    if evs == [] then 0
    else (if Prompts(evs[0], k) then 1 else 0) + Prompted(evs[1..], k)
  }

  /** One event sends at most one message, of the kind it prompts; a Join
      click always sends its join request; no offer leaves a page that is
      not joined. */
  lemma StepSent(s: SessionView, e: Event, k: MsgKind)
    ensures Sent(Step(s, e).outbox, k) <= Sent(s.outbox, k) + (if Prompts(e, k) then 1 else 0)
    ensures k == JoinKind ==>
              Sent(Step(s, e).outbox, k) == Sent(s.outbox, k) + (if e.ClickJoin? then 1 else 0)
    ensures k == OfferKind && !Step(s, e).isJoined ==>
              Sent(Step(s, e).outbox, k) == Sent(s.outbox, k)
  {
  }

  /** Over any run: the page never sends more messages of a kind than events
      prompted it to (in particular never more answers than offers it
      received); it sends exactly one join request per Join click; and a
      page that has not joined by the end has sent no offer. */
  lemma {:induction false} RunSent(s: SessionView, evs: seq<Event>, k: MsgKind)
    ensures Sent(Run(s, evs).outbox, k) <= Sent(s.outbox, k) + Prompted(evs, k)
    ensures k == JoinKind ==>
              Sent(Run(s, evs).outbox, k) == Sent(s.outbox, k) + Prompted(evs, k)
    ensures k == OfferKind && !Run(s, evs).isJoined ==>
              Sent(Run(s, evs).outbox, k) == Sent(s.outbox, k)
    decreases |evs|
  {
    if evs != [] {
      var t := Step(s, evs[0]);
      StepSent(s, evs[0], k);
      RunSent(t, evs[1..], k);
      RunAppendOnly(t, evs[1..]);
    }
  }

  /** A complete call between two pages of the same room, in the order of
      RFC 3264 (sections 5 to 7): the joined caller emits its offer and
      holds it as local description; the callee, with media ready, applies
      the relayed offer, answers and emits the answer; the caller applies
      the relayed answer. Meanwhile each side forwards a candidate it
      discovers and the other side applies it. Once each side sees the
      other's media, both are connected, hold the same two descriptions in
      mirrored roles, and have applied each other's candidate. */
  lemma Handshake(a: SessionView, b: SessionView, offer: Desc, answer: Desc,
                  candA: Cand, candB: Cand, fromA: Stream, fromB: Stream)
    requires Coherent(a) && Coherent(b) && a.roomId == b.roomId
    requires a.handlersInstalled && b.handlersInstalled
    requires a.isJoined && a.pc.Some?
    requires b.localStream.Some?
    requires offer.kind == OfferSdp && answer.kind == AnswerSdp
    ensures
      var a1 := Step(a, ClickStartCall(offer));
      a1.outbox != [] && Last(a1.outbox) == Offer(offer, a.roomId) &&
      var a2 := Step(a1, IceGathered(Some(candA)));
      a2.outbox != [] && Last(a2.outbox) == IceCandidate(candA, a.roomId) &&
      var b1 := Step(b, RecvOffer(Last(a1.outbox).desc, answer));
      b1.outbox != [] && Last(b1.outbox) == Answer(answer, b.roomId) &&
      var b2 := Step(b1, RecvCandidate(Last(a2.outbox).cand));
      var b3 := Step(b2, IceGathered(Some(candB)));
      b3.outbox != [] && Last(b3.outbox) == IceCandidate(candB, b.roomId) &&
      var a3 := Step(a2, RecvAnswer(Last(b1.outbox).desc));
      var a4 := Step(a3, RecvCandidate(Last(b3.outbox).cand));
      var a5 := Step(a4, RemoteTrack([fromB]));
      var b4 := Step(b3, RemoteTrack([fromA]));
      Connected(a5) && Connected(b4) && Coherent(a5) && Coherent(b4) &&
      a5.pc.value.localDesc == b4.pc.value.remoteDesc == Some(offer) &&
      a5.pc.value.remoteDesc == b4.pc.value.localDesc == Some(answer) &&
      a5.pc.value.appliedCandidates == a.pc.value.appliedCandidates + [candB] &&
      b4.pc.value.appliedCandidates != [] && LastCand(b4.pc.value.appliedCandidates) == candA
  {
  }

  /** The `joined` confirmation arrives before media: no connection is made
      then, and the media that arrives next does not make one either, so a
      Start Call click sends nothing. */
  lemma JoinBeforeMedia(tracks: seq<Track>, offer: Desc)
    ensures
      var s := Step(Step(Mounted(), RecvJoined), LocalMedia(tracks));
      s.isJoined && s.pc.None? && s.localStream == Some(tracks) &&
      Step(s, ClickStartCall(offer)) == s
  {
  }

  /** Such a page can still be called: an inbound offer creates the
      connection lazily, with the local tracks, and is answered. */
  lemma JoinBeforeMediaStillAnswers(tracks: seq<Track>, offer: Desc, answer: Desc)
    ensures
      var s := Step(Step(Step(Mounted(), RecvJoined), LocalMedia(tracks)), RecvOffer(offer, answer));
      s.pc.Some? && s.pc.value.tracks == tracks &&
      s.pc.value.remoteDesc == Some(offer) && s.pc.value.localDesc == Some(answer) &&
      s.outbox == [Answer(answer, DefaultRoom)]
  {
  }

  /** Such a page can call again once a connection exists: a further
      `joined` confirmation (after another Join click) creates one with the
      local tracks, and so does an inbound offer; either way the next Start
      Call click sends an offer. */
  lemma JoinBeforeMediaCallsLater(tracks: seq<Track>, offer: Desc, theirs: Desc, answer: Desc)
    ensures
      var s := Step(Step(Mounted(), RecvJoined), LocalMedia(tracks));
      var rejoined := Step(Step(s, ClickJoin), RecvJoined);
      var called := Step(s, RecvOffer(theirs, answer));
      rejoined.pc.Some? && rejoined.pc.value.tracks == tracks &&
      Step(rejoined, ClickStartCall(offer)).outbox == rejoined.outbox + [Offer(offer, DefaultRoom)] &&
      Step(called, ClickStartCall(offer)).outbox == called.outbox + [Offer(offer, DefaultRoom)]
  {
  }
}
