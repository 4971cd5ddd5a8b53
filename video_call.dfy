/** The `VideoCall` page as an object: its React state, the peer connection
    reference and the relay socket's outgoing messages are fields, and every
    handler is a method that updates them in place. Each method is proved to
    move the page's view exactly as the matching function of SessionSpec
    says; the facts that only make sense for objects (which connection is
    fresh, which one gets closed, which one is dropped while still open)
    are stated beside that. */
module VideoCall {
  import opened Wire
  import opened PeerConnections
  import SessionSpec

  /** The `forEach` over the local stream's tracks: each track is added to
      the connection, one at a time, in order. */
  method AttachTracks(p: PeerConnection, ts: seq<Track>)
    modifies p
    ensures p.View() == old(p.View()).(tracks := old(p.tracks) + ts)
  {
    var i := 0;
    while i < |ts|
      invariant 0 <= i <= |ts|
      invariant p.View() == old(p.View()).(tracks := old(p.tracks) + ts[..i])
    {
      p.AddTrack(ts[i]);
      assert ts[..i + 1] == ts[..i] + [ts[i]];
      i := i + 1;
    }
    assert ts[..i] == ts;
  }

  class Session {
    var localStream: Option<seq<Track>>
    var isJoined: bool
    var roomId: string
    var pc: Option<PeerConnection>
    var remoteStream: Option<Stream>
    var handlersInstalled: bool
    var outbox: seq<Msg>

    /** The connection object the reference currently points to, if any. */
    function Pcs(): set<object>
      reads this
    {
      if pc.Some? then {pc.value} else {}
    }

    /** The value the signaling state machine sees of this page. */
    function View(): (v: SessionSpec.SessionView)
      reads this, Pcs()
    {
      SessionSpec.SessionView(
        localStream, isJoined, roomId,
        if pc.Some? then Some(pc.value.View()) else None,
        remoteStream, handlersInstalled, outbox)
    }

    /** The page once rendered, with its signaling effect run once. */
    constructor ()
      ensures View() == SessionSpec.Mounted()
    {
      localStream, isJoined, roomId := None, false, SessionSpec.DefaultRoom;
      pc, remoteStream := None, None;
      handlersInstalled, outbox := true, [];
    }

    method CreatePeerConnection()
      modifies this
      ensures View() == SessionSpec.CreatePeerConnection(old(View()))
      ensures old(localStream).Some? ==> pc.Some? && fresh(pc.value)
      ensures old(localStream).None? ==> pc == old(pc)
    {
      if localStream.None? {
        return;
      }
      var p := new PeerConnection();
      pc := Some(p);
      AttachTracks(p, localStream.value);
      assert p.View() == NewPc(localStream.value);
    }

    /** The `joined` handler. A connection that existed before is replaced
        and left open. */
    method OnJoined()
      requires handlersInstalled
      modifies this
      ensures View() == SessionSpec.OnJoined(old(View()))
      ensures old(localStream).Some? ==> pc.Some? && fresh(pc.value)
      ensures old(localStream).None? ==> pc == old(pc)
      ensures old(pc).Some? ==> unchanged(old(pc).value)
    {
      isJoined := true;
      CreatePeerConnection();
    }

    /** The `offer` handler; `answer` is what the connection's `createAnswer`
        produced. `ok` is false when the handler throws because the
        reference is still null. */
    method OnOffer(offer: Desc, answer: Desc) returns (ok: bool)
      requires handlersInstalled
      modifies this, Pcs()
      ensures ok == (old(pc).Some? || old(localStream).Some?)
      ensures SessionSpec.OnOffer(old(View()), offer, answer) ==
              if ok then SessionSpec.Ok(View()) else SessionSpec.Err(SessionSpec.NullPeerConnection)
      ensures !ok ==> View() == old(View())
      ensures old(pc).Some? ==> pc == old(pc)
      ensures old(pc).None? && ok ==> pc.Some? && fresh(pc.value)
    {
      if pc.None? {
        CreatePeerConnection();
      }
      if pc.None? {
        return false;
      }
      var p := pc.value;
      p.SetRemoteDescription(offer);
      p.SetLocalDescription(answer);
      outbox := outbox + [Answer(answer, roomId)];
      return true;
    }

    /** The `answer` handler. */
    method OnAnswer(answer: Desc)
      requires handlersInstalled
      modifies Pcs()
      ensures View() == SessionSpec.OnAnswer(old(View()), answer)
      ensures pc == old(pc)
    {
      if pc.Some? {
        pc.value.SetRemoteDescription(answer);
      }
    }

    /** The `ice-candidate` handler. */
    method OnRemoteCandidate(c: Cand)
      requires handlersInstalled
      modifies Pcs()
      ensures View() == SessionSpec.OnRemoteCandidate(old(View()), c)
      ensures pc == old(pc)
    {
      if pc.Some? {
        pc.value.AddIceCandidate(c);
      }
    }

    /** The connection's `onicecandidate` hook. */
    method OnLocalCandidate(c: Option<Cand>)
      modifies this
      ensures View() == SessionSpec.OnLocalCandidate(old(View()), c)
      ensures pc == old(pc)
    {
      if c.Some? {
        outbox := outbox + [IceCandidate(c.value, roomId)];
      }
    }

    /** The connection's `ontrack` hook. */
    method OnTrack(streams: seq<Stream>)
      modifies this
      ensures View() == SessionSpec.OnTrack(old(View()), streams)
      ensures pc == old(pc)
    {
      remoteStream := if streams == [] then None else Some(streams[0]);
    }

    /** The effect cleanup. The connection it forgets has been closed. */
    method Teardown()
      modifies this, Pcs()
      ensures View() == SessionSpec.Teardown(old(View()))
      ensures old(pc).Some? ==>
                old(pc).value.View() == old(pc.value.View()).(closed := true)
    {
      handlersInstalled := false;
      if pc.Some? {
        pc.value.Close();
        pc := None;
      }
    }

    /** `setLocalStream` with the stream media acquisition produced, and the
        re-run of the signaling effect that it causes. */
    method OnLocalStream(tracks: seq<Track>)
      modifies this, Pcs()
      ensures View() == SessionSpec.LocalStreamChanged(old(View()), tracks)
      ensures old(pc).Some? ==>
                old(pc).value.View() == old(pc.value.View()).(closed := true)
    {
      localStream := Some(tracks);
      Teardown();
      handlersInstalled := true;
    }

    /** `handleJoinRoom`. */
    method HandleJoinRoom()
      modifies this
      ensures View() == SessionSpec.HandleJoinRoom(old(View()))
      ensures pc == old(pc)
    {
      outbox := outbox + [JoinRoom(roomId)];
    }

    /** `initiateCall`; `offer` is what the connection's `createOffer`
        produced. */
    method InitiateCall(offer: Desc)
      modifies this, Pcs()
      ensures View() == SessionSpec.InitiateCall(old(View()), offer)
      ensures pc == old(pc)
    {
      if pc.None? {
        return;
      }
      pc.value.SetLocalDescription(offer);
      outbox := outbox + [Offer(offer, roomId)];
    }
  }

  /** A page that gets its media, joins, starts a call and is then cleaned
      up: the connection `joined` created is the one the offer is set on and
      the one the cleanup closes, and it holds the local tracks. */
  method CallThenLeave(tracks: seq<Track>, offer: Desc) returns (p: PeerConnection)
    ensures p.tracks == tracks && p.localDesc == Some(offer) && p.closed
  {
    var page := new Session();
    page.OnLocalStream(tracks);
    page.OnJoined();
    p := page.pc.value;
    page.InitiateCall(offer);
    page.Teardown();
  }
}
