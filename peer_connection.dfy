/** The browser's peer connection as the call page uses it: an object that
    collects local tracks, holds a local and a remote description, collects
    applied remote candidates and can be closed. Description generation,
    candidate gathering and media transport stay inside the browser and are
    not modelled; each method records what the page asked of the object. */
module PeerConnections {
  import opened Wire

  class PeerConnection {
    var tracks: seq<Track>
    var localDesc: Option<Desc>
    var remoteDesc: Option<Desc>
    var appliedCandidates: seq<Cand>
    var closed: bool

    /** The value the signaling state machine sees of this object. */
    function View(): (v: PcView)
      reads this
    {
      PcView(tracks, localDesc, remoteDesc, appliedCandidates, closed)
    }

    /** `new RTCPeerConnection(configuration)`: no tracks, no descriptions,
        no candidates, open. */
    constructor ()
      ensures View() == NewPc([])
    {
      tracks, localDesc, remoteDesc, appliedCandidates, closed := [], None, None, [], false;
    }

    /** `addTrack`: the track is appended to the connection's senders. */
    method AddTrack(t: Track)
      modifies this
      ensures View() == old(View()).(tracks := old(tracks) + [t])
    {
      tracks := tracks + [t];
    }

    method SetLocalDescription(d: Desc)
      modifies this
      ensures View() == old(View()).(localDesc := Some(d))
    {
      localDesc := Some(d);
    }

    method SetRemoteDescription(d: Desc)
      modifies this
      ensures View() == old(View()).(remoteDesc := Some(d))
    {
      remoteDesc := Some(d);
    }

    method AddIceCandidate(c: Cand)
      modifies this
      ensures View() == old(View()).(appliedCandidates := old(appliedCandidates) + [c])
    {
      appliedCandidates := appliedCandidates + [c];
    }

    method Close()
      modifies this
      ensures View() == old(View()).(closed := true)
    {
      closed := true;
    }
  }
}
