/** The call coordinator of src/components/VideoCall.jsx: the signaling event
    handlers and user commands over the peer-connection ref, the local stream
    (ref and state), the remote stream, the call flags and the status line.
    Browser media and peer-connection calls are abstract: acquiring media yields
    a track array or fails (null), session descriptions and candidates are
    opaque, and every awaited step that may reject is an outcome parameter. */
module VideoCall {
  import opened Base

  datatype TrackKind = Audio | Video

  /** A media track: its kind, `enabled`, and whether it is still live (not stopped). */
  datatype Track = Track(kind: TrackKind, enabled: bool, live: bool)

  /** An opaque session description. */
  datatype Desc = Desc(sdp: string)

  /** An opaque connectivity candidate. */
  datatype Candidate = Candidate(text: string)

  /** A peer connection created for `peer`; `serial` tells connections apart. */
  datatype PeerConn = PeerConn(serial: nat, peer: string, local: Option<Desc>, remote: Option<Desc>, candidates: seq<Candidate>)

  /** What the coordinator emits on the socket. */
  datatype Signal =
    | JoinRoomSignal(roomId: string, userId: string)
    | OfferSignal(offer: Desc, targetUserId: string)
    | AnswerSignal(answer: Desc, targetUserId: string)

  const InitializingStatus := "Initializing..."
  const ServerStatus := "Connected to Server"
  const ReceivingStatus := "Receiving Call..."
  const ConnectedStatus := "Connected with Partner"
  const PartnerJoinedStatus := "Partner Joined. Calling..."
  const InitiatingStatus := "Initiating Call..."
  const AccessingStatus := "Accessing Camera..."
  const ReadyStatus := "Ready to Call"
  const EndedStatus := "Call Ended"

  /** Every field of the coordinator except track contents. */
  datatype CallState = CallState(
    local: array?<Track>,
    remote: Option<nat>,
    active: bool,
    pc: Option<PeerConn>,
    created: nat,
    closed: seq<nat>,
    status: string,
    mic: bool,
    camera: bool,
    speaker: bool,
    sent: seq<Signal>)
  {
    /** The state `endCall` leaves behind. */
    predicate IsEnded() {
      pc.None? && local == null && remote.None? && !active && status == EndedStatus
    }
  }

  /** `track.stop()` on every track. */
  function StopAll(ts: seq<Track>): (r: seq<Track>)
    ensures |r| == |ts|
    ensures forall i :: 0 <= i < |ts| ==> !r[i].live && r[i].kind == ts[i].kind && r[i].enabled == ts[i].enabled
  {
    seq(|ts|, i requires 0 <= i < |ts| => ts[i].(live := false))
  }

  /** `track.enabled = v` on every track of the given kind; other tracks untouched. */
  function SetEnabled(ts: seq<Track>, kind: TrackKind, v: bool): (r: seq<Track>)
    ensures |r| == |ts|
    ensures forall i :: 0 <= i < |ts| && ts[i].kind == kind ==> r[i] == ts[i].(enabled := v)
    ensures forall i :: 0 <= i < |ts| && ts[i].kind != kind ==> r[i] == ts[i]
  {
    seq(|ts|, i requires 0 <= i < |ts| => if ts[i].kind == kind then ts[i].(enabled := v) else ts[i])
  }

  /** Toggling twice restores every track and the flag. */
  lemma SetEnabledTwice(ts: seq<Track>, kind: TrackKind, flag: bool)
    requires forall i :: 0 <= i < |ts| && ts[i].kind == kind ==> ts[i].enabled == flag
    ensures SetEnabled(SetEnabled(ts, kind, !flag), kind, flag) == ts
  {
  }

  /** The connections `close()` is called on when a connection may be held. */
  function ClosedBy(pc: Option<PeerConn>): seq<nat> {
    if pc.Some? then [pc.value.serial] else []
  }

  /** `track.stop()` on each track of a stream, in place. */
  method StopTracks(tracks: array<Track>)
    modifies tracks
    ensures tracks[..] == StopAll(old(tracks[..]))
  {
    var i := 0;
    while i < tracks.Length
      invariant 0 <= i <= tracks.Length
      invariant forall j :: 0 <= j < i ==> tracks[j] == old(tracks[j]).(live := false)
      invariant forall j :: i <= j < tracks.Length ==> tracks[j] == old(tracks[j])
    {
      tracks[i] := tracks[i].(live := false);
      i := i + 1;
    }
  }

  /** `forEach(track => track.enabled = v)` over the tracks of one kind, in place. */
  method EnableTracks(tracks: array<Track>, kind: TrackKind, v: bool)
    modifies tracks
    ensures tracks[..] == SetEnabled(old(tracks[..]), kind, v)
  {
    var i := 0;
    while i < tracks.Length
      invariant 0 <= i <= tracks.Length
      invariant forall j :: 0 <= j < i ==> tracks[j] == if old(tracks[j]).kind == kind then old(tracks[j]).(enabled := v) else old(tracks[j])
      invariant forall j :: i <= j < tracks.Length ==> tracks[j] == old(tracks[j])
    {
      if tracks[i].kind == kind {
        tracks[i] := tracks[i].(enabled := v);
      }
      i := i + 1;
    }
  }

  class Call {
    const roomId: string
    const userId: string
    /** `localStreamRef.current`. */
    var localRef: array?<Track>
    /** The `localStream` state. */
    var localStream: array?<Track>
    /** The `remoteStream` state (filled by the connection's track handler). */
    var remoteStream: Option<nat>
    var isCallActive: bool
    /** `peerConnection.current`. */
    var pc: Option<PeerConn>
    /** Peer connections created so far; serials are 0 .. created - 1. */
    var created: nat
    /** Serials of the connections `close()` was called on. */
    var closed: seq<nat>
    var connectionStatus: string
    var isMicOn: bool
    var isCameraOn: bool
    var isSpeakerOn: bool
    /** Everything emitted on the socket, oldest first. */
    var sent: seq<Signal>

    /** The ref and the state of the local stream agree, and the held connection is one created here. */
    ghost predicate Valid()
      reads this
    {
      localRef == localStream && (pc.Some? ==> pc.value.serial < created)
    }

    ghost function State(): CallState
      reads this
    {
      CallState(localRef, remoteStream, isCallActive, pc, created, closed,
                connectionStatus, isMicOn, isCameraOn, isSpeakerOn, sent)
    }

    /** Mounting the component for `userId` in `roomId`. */
    constructor (roomId: string, userId: string)
      ensures Valid()
      ensures this.roomId == roomId && this.userId == userId
      ensures State() == CallState(null, None, false, None, 0, [], InitializingStatus, true, true, true, [])
    {
      this.roomId := roomId;
      this.userId := userId;
      localRef := null;
      localStream := null;
      remoteStream := None;
      isCallActive := false;
      pc := None;
      created := 0;
      closed := [];
      connectionStatus := InitializingStatus;
      isMicOn := true;
      isCameraOn := true;
      isSpeakerOn := true;
      sent := [];
    }

    /** `setLocalStream(stream)`: writes the ref and the state together. */
    method SetLocalStream(stream: array?<Track>)
      modifies this
      ensures localRef == stream && localStream == stream
      ensures remoteStream == old(remoteStream) && isCallActive == old(isCallActive) && pc == old(pc)
      ensures created == old(created) && closed == old(closed) && connectionStatus == old(connectionStatus)
      ensures isMicOn == old(isMicOn) && isCameraOn == old(isCameraOn) && isSpeakerOn == old(isSpeakerOn)
      ensures sent == old(sent)
    {
      localRef := stream;
      localStream := stream;
    }

    /** `createPeerConnection(peerId)`: installs a fresh connection for that peer. */
    method CreatePeerConnection(peer: string)
      requires Valid()
      modifies this
      ensures Valid()
      ensures pc == Some(PeerConn(old(created), peer, None, None, [])) && created == old(created) + 1
      ensures localRef == old(localRef) && localStream == old(localStream) && remoteStream == old(remoteStream)
      ensures isCallActive == old(isCallActive) && closed == old(closed) && connectionStatus == old(connectionStatus)
      ensures isMicOn == old(isMicOn) && isCameraOn == old(isCameraOn) && isSpeakerOn == old(isSpeakerOn)
      ensures sent == old(sent)
    {
      pc := Some(PeerConn(created, peer, None, None, []));
      created := created + 1;
    }

    /** The socket's 'connect' handler: joins the call room. */
    method OnConnect()
      requires Valid()
      modifies this
      ensures Valid()
      ensures State() == old(State()).(status := ServerStatus, sent := old(sent) + [JoinRoomSignal(roomId, userId)])
    {
      connectionStatus := ServerStatus;
      sent := sent + [JoinRoomSignal(roomId, userId)];
    }

    /** The socket's 'connect_error' handler. */
    method OnConnectError(message: string)
      requires Valid()
      modifies this
      ensures Valid()
      ensures State() == old(State()).(status := "Connection Error: " + message)
    {
      connectionStatus := "Connection Error: " + message;
    }

    /** The 'offer' handler. A new connection for `senderId` is installed whatever the
        current state. `answer` is the generated answer, or None when applying the offer
        or generating the answer rejected, which stops the handler there. */
    method HandleOffer(offer: Desc, senderId: string, answer: Option<Desc>)
      requires Valid()
      modifies this
      ensures Valid()
      ensures answer.None? ==>
                State() == old(State()).(pc := Some(PeerConn(old(created), senderId, None, None, [])),
                                         created := old(created) + 1, status := ReceivingStatus)
      ensures answer.Some? ==>
                State() == old(State()).(pc := Some(PeerConn(old(created), senderId, answer, Some(offer), [])),
                                         created := old(created) + 1,
                                         sent := old(sent) + [AnswerSignal(answer.value, senderId)],
                                         active := true, status := ConnectedStatus)
    {
      connectionStatus := ReceivingStatus;
      CreatePeerConnection(senderId);
      if answer.None? {
        return;
      }
      pc := Some(pc.value.(remote := Some(offer), local := answer));
      sent := sent + [AnswerSignal(answer.value, senderId)];
      isCallActive := true;
      connectionStatus := ConnectedStatus;
    }

    /** The 'answer' handler: applied only when a connection is held, with no check
        of whether an answer is still expected. `applied` is false when applying rejected. */
    method HandleAnswer(answer: Desc, applied: bool)
      requires Valid()
      modifies this
      ensures Valid()
      ensures old(pc).Some? && applied ==>
                State() == old(State()).(pc := Some(old(pc).value.(remote := Some(answer))),
                                         active := true, status := ConnectedStatus)
      ensures !(old(pc).Some? && applied) ==> State() == old(State())
    {
      if pc.Some? && applied {
        pc := Some(pc.value.(remote := Some(answer)));
        isCallActive := true;
        connectionStatus := ConnectedStatus;
      }
    }

    /** The 'ice-candidate' handler: dropped without a connection; a failure to add
        it is caught and changes nothing. */
    method HandleIceCandidate(candidate: Candidate, added: bool)
      requires Valid()
      modifies this
      ensures Valid()
      ensures old(pc).Some? && added ==>
                State() == old(State()).(pc := Some(old(pc).value.(candidates := old(pc).value.candidates + [candidate])))
      ensures !(old(pc).Some? && added) ==> State() == old(State())
    {
      if pc.Some? && added {
        pc := Some(pc.value.(candidates := pc.value.candidates + [candidate]));
      }
    }

    /** `initiateOneToOneCall(targetUserId)`. Media is acquired only when no local stream
        is held (`acquired` is the stream obtained, null if acquisition failed); `offer` is
        the generated offer, None when generating or applying it rejected. */
    method InitiateOneToOneCall(target: string, acquired: array?<Track>, offer: Option<Desc>)
      requires Valid()
      modifies this
      ensures Valid()
      ensures connectionStatus == InitiatingStatus
      ensures remoteStream == old(remoteStream) && isCallActive == old(isCallActive) && closed == old(closed)
      ensures isMicOn == old(isMicOn) && isCameraOn == old(isCameraOn) && isSpeakerOn == old(isSpeakerOn)
      ensures old(localRef) == null && acquired == null ==>
                localRef == null && pc == old(pc) && created == old(created) && sent == old(sent)
      ensures old(localRef) != null || acquired != null ==>
                && localRef == (if old(localRef) != null then old(localRef) else acquired)
                && pc == Some(PeerConn(old(created), target, offer, None, []))
                && created == old(created) + 1
                && sent == old(sent) + (if offer.Some? then [OfferSignal(offer.value, target)] else [])
    {
      connectionStatus := InitiatingStatus;
      if localRef == null && acquired == null {
        return;
      }
      if localRef == null {
        SetLocalStream(acquired);
      }
      CreatePeerConnection(target);
      if offer.Some? {
        pc := Some(pc.value.(local := offer));
        sent := sent + [OfferSignal(offer.value, target)];
      }
    }

    /** The 'user-connected' handler: the partner joined, so this side calls it. */
    method HandleUserConnected(partnerId: string, acquired: array?<Track>, offer: Option<Desc>)
      requires Valid()
      modifies this
      ensures Valid()
      ensures connectionStatus == InitiatingStatus
      ensures remoteStream == old(remoteStream) && isCallActive == old(isCallActive) && closed == old(closed)
      ensures isMicOn == old(isMicOn) && isCameraOn == old(isCameraOn) && isSpeakerOn == old(isSpeakerOn)
      ensures old(localRef) == null && acquired == null ==>
                localRef == null && pc == old(pc) && created == old(created) && sent == old(sent)
      ensures old(localRef) != null || acquired != null ==>
                && localRef == (if old(localRef) != null then old(localRef) else acquired)
                && pc == Some(PeerConn(old(created), partnerId, offer, None, []))
                && created == old(created) + 1
                && sent == old(sent) + (if offer.Some? then [OfferSignal(offer.value, partnerId)] else [])
    {
      connectionStatus := PartnerJoinedStatus;
      InitiateOneToOneCall(partnerId, acquired, offer);
    }

    /** `startCall()`: a no-op while a local stream is held; otherwise acquires media
        (`acquired`, null when it failed with `errorMessage`). */
    method StartCall(acquired: array?<Track>, errorMessage: string)
      requires Valid()
      modifies this
      ensures Valid()
      ensures old(localRef) != null ==> State() == old(State())
      ensures old(localRef) == null && acquired == null ==>
                State() == old(State()).(status := "Camera Error: " + errorMessage)
      ensures old(localRef) == null && acquired != null ==>
                State() == old(State()).(local := acquired, status := ReadyStatus)
    {
      if localRef != null {
        return;
      }
      connectionStatus := AccessingStatus;
      if acquired == null {
        connectionStatus := "Camera Error: " + errorMessage;
        return;
      }
      SetLocalStream(acquired);
      connectionStatus := ReadyStatus;
    }

    /** `endCall()`: closes and forgets the connection, stops every local track, drops both
        streams and marks the call ended. Ending an ended call changes nothing. */
    method EndCall()
      requires Valid()
      modifies this, localRef
      ensures Valid()
      ensures State() == old(State()).(pc := None, closed := old(closed) + ClosedBy(old(pc)),
                                       local := null, remote := None, active := false, status := EndedStatus)
      ensures State().IsEnded()
      ensures old(State()).IsEnded() ==> State() == old(State())
      ensures old(localRef) != null ==> old(localRef)[..] == StopAll(old(localRef[..]))
    {
      if pc.Some? {
        closed := closed + [pc.value.serial];
        pc := None;
      }
      if localRef != null {
        StopTracks(localRef);
        SetLocalStream(null);
      }
      remoteStream := None;
      isCallActive := false;
      connectionStatus := EndedStatus;
    }

    /** The 'user-disconnected' handler: ends the call unless the id is this user's own. */
    method HandleUserDisconnected(disconnectedId: string)
      requires Valid()
      modifies this, localRef
      ensures Valid()
      ensures disconnectedId == userId ==> State() == old(State()) && (old(localRef) != null ==> old(localRef)[..] == old(localRef[..]))
      ensures disconnectedId != userId ==>
                State() == old(State()).(pc := None, closed := old(closed) + ClosedBy(old(pc)),
                                         local := null, remote := None, active := false, status := EndedStatus)
      ensures disconnectedId != userId && old(localRef) != null ==> old(localRef)[..] == StopAll(old(localRef[..]))
    {
      if disconnectedId != userId {
        connectionStatus := "Partner Disconnected";
        EndCall();
      }
    }

    /** `toggleMic()`: without a stream nothing happens; otherwise every audio track's
        `enabled` becomes the negated flag, and the flag flips. */
    method ToggleMic()
      requires Valid()
      modifies this, localRef
      ensures Valid()
      ensures old(localRef) == null ==> State() == old(State())
      ensures old(localRef) != null ==> State() == old(State()).(mic := !old(isMicOn))
      ensures old(localRef) != null ==> localRef[..] == SetEnabled(old(localRef[..]), Audio, !old(isMicOn))
      ensures localRef != null ==> forall i :: 0 <= i < localRef.Length && localRef[i].kind == Audio ==> localRef[i].enabled == isMicOn
    {
      if localRef != null {
        EnableTracks(localRef, Audio, !isMicOn);
        isMicOn := !isMicOn;
      }
    }

    /** `toggleCamera()`: as `toggleMic`, for the video tracks and the camera flag. */
    method ToggleCamera()
      requires Valid()
      modifies this, localRef
      ensures Valid()
      ensures old(localRef) == null ==> State() == old(State())
      ensures old(localRef) != null ==> State() == old(State()).(camera := !old(isCameraOn))
      ensures old(localRef) != null ==> localRef[..] == SetEnabled(old(localRef[..]), Video, !old(isCameraOn))
      ensures localRef != null ==> forall i :: 0 <= i < localRef.Length && localRef[i].kind == Video ==> localRef[i].enabled == isCameraOn
    {
      if localRef != null {
        EnableTracks(localRef, Video, !isCameraOn);
        isCameraOn := !isCameraOn;
      }
    }

    /** The speaker button: flips the flag that mutes the remote video element. */
    method ToggleSpeaker()
      requires Valid()
      modifies this
      ensures Valid()
      ensures State() == old(State()).(speaker := !old(isSpeakerOn))
    {
      isSpeakerOn := !isSpeakerOn;
    }
  }
}
