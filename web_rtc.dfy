/** The call-session manager: one slot each for the local stream, the peer
    connection and the remote stream, and the flags the call window shows.
    The browser objects are modelled abstractly: a track has a kind, an
    `enabled` bit and a `stopped` bit; a peer connection records the tracks
    attached to it, its descriptions and whether it is closed. What the
    media device and the negotiation primitives answer comes in as oracle
    parameters. */
module WebRTC {
  import opened Wrappers
  import opened Lists

  datatype TrackKind = Audio | Video

  /** A `MediaStreamTrack`: `stopped` is `readyState == "ended"`. */
  class MediaStreamTrack {
    const kind: TrackKind
    var enabled: bool
    var stopped: bool

    constructor (kind: TrackKind)
      ensures this.kind == kind && enabled && !stopped
    {
      this.kind := kind;
      enabled := true;
      stopped := false;
    }

    /** `track.stop()`: ends the track and releases the device. */
    method Stop()
      modifies this`stopped
      ensures stopped
    {
      stopped := true;
    }
  }

  /** `getAudioTracks()[0]` / `getVideoTracks()[0]`: the first track of a kind. */
  function FirstOfKind(tracks: seq<MediaStreamTrack>, k: TrackKind): (r: Option<MediaStreamTrack>)
    ensures r.None? <==> forall i :: 0 <= i < |tracks| ==> tracks[i].kind != k
    ensures r.Some? ==> r.value in tracks && r.value.kind == k
    ensures r.Some? ==> exists i :: 0 <= i < |tracks| && tracks[i] == r.value &&
                                    forall j :: 0 <= j < i ==> tracks[j].kind != k
  {
    if tracks == [] then None
    else if tracks[0].kind == k then Some(tracks[0])
    else
      var r := FirstOfKind(tracks[1..], k);
      assert forall j :: 0 <= j < |tracks| - 1 ==> tracks[1..][j] == tracks[j + 1];
      r
  }

  /** `FirstOfKind` is `find` with the kind test. */
  lemma {:induction false} FirstOfKindIsFind(tracks: seq<MediaStreamTrack>, k: TrackKind)
    ensures FirstOfKind(tracks, k) == Find(tracks, (t: MediaStreamTrack) => t.kind == k)
  {
    if tracks != [] && tracks[0].kind != k {
      FirstOfKindIsFind(tracks[1..], k);
    }
  }

  /** A `MediaStream`: its tracks in `getTracks()` order. */
  class MediaStream {
    const tracks: seq<MediaStreamTrack>

    constructor (tracks: seq<MediaStreamTrack>)
      ensures this.tracks == tracks
    {
      this.tracks := tracks;
    }
  }

  /** The `video` member of the constraints: absent, or a resolution. */
  datatype VideoConstraint = NoVideo | Resolution(width: nat, height: nat)

  datatype MediaConstraints = MediaConstraints(audio: bool, video: VideoConstraint)

  /** The constraints both `startCall` and `answerCall` request. */
  function Constraints(isVideo: bool): MediaConstraints
  {
    MediaConstraints(true, if isVideo then Resolution(1280, 720) else NoVideo)
  }

  datatype DeviceError = PermissionDenied | DeviceNotFound | DeviceBusy

  /** The device's answer to `getUserMedia`: the kinds of the tracks of the
      stream it grants, or the reason it refuses. */
  datatype Acquisition = Granted(kinds: seq<TrackKind>) | Refused(error: DeviceError)

  datatype CallError = DeviceFailure(device: DeviceError) | NegotiationFailure(reason: string)

  datatype SdpType = Offer | Answer

  /** An `RTCSessionDescriptionInit`; the SDP text is opaque here. */
  datatype SessionDescription = SessionDescription(kind: SdpType, sdp: string)

  /** What the negotiation primitives answer during one call attempt: the SDP
      `createOffer`/`createAnswer` produce (or their rejection), and whether
      `setLocalDescription` and `setRemoteDescription` accept their argument. */
  datatype Negotiator = Negotiator(created: Result<string, string>, acceptsLocal: bool, acceptsRemote: bool)

  /** The calls made on a peer connection during negotiation, in order. */
  datatype NegotiationStep =
    | AppliedRemote(description: SessionDescription)
    | CreatedOffer
    | CreatedAnswer
    | AppliedLocal(description: SessionDescription)

  /** The fixed relay-discovery configuration of every peer connection. */
  const IceServers: seq<string> := ["stun:stun.l.google.com:19302", "stun:stun1.l.google.com:19302"]

  /** An `RTCPeerConnection`. */
  class RTCPeerConnection {
    const iceServers: seq<string>
    var senders: seq<MediaStreamTrack>
    var localDescription: Option<SessionDescription>
    var remoteDescription: Option<SessionDescription>
    var hasTrackHandler: bool
    var steps: seq<NegotiationStep>
    var closed: bool

    constructor (iceServers: seq<string>)
      ensures this.iceServers == iceServers && senders == [] && steps == []
      ensures localDescription.None? && remoteDescription.None?
      ensures !hasTrackHandler && !closed
    {
      this.iceServers := iceServers;
      senders := [];
      localDescription := None;
      remoteDescription := None;
      hasTrackHandler := false;
      steps := [];
      closed := false;
    }

    /** `addTrack(track, stream)`; the browser refuses a closed connection
      and a track that is already attached. */
    method AddTrack(t: MediaStreamTrack)
      requires !closed && t !in senders
      modifies this`senders
      ensures senders == old(senders) + [t]
    {
      senders := senders + [t];
    }

    /** `stream.getTracks().forEach(track => addTrack(track, stream))`:
        attaches the tracks one by one, in stream order. */
    method AddTracks(ts: seq<MediaStreamTrack>)
      requires !closed && NoDuplicates(ts)
      requires forall t :: t in ts ==> t !in senders
      modifies this`senders
      ensures senders == old(senders) + ts
    {
      for i := 0 to |ts|
        invariant senders == old(senders) + ts[..i]
      {
        AddTrack(ts[i]);
      }
    }

    /** Setting `ontrack`. */
    method SetTrackHandler()
      modifies this`hasTrackHandler
      ensures hasTrackHandler
    {
      hasTrackHandler := true;
    }

    /** `createOffer()` or `createAnswer()`, answered by the negotiator. */
    method Create(kind: SdpType, n: Negotiator) returns (r: Result<SessionDescription, CallError>)
      modifies this`steps
      ensures steps == old(steps) + [if kind == Offer then CreatedOffer else CreatedAnswer]
      ensures r == match n.created
                   case Success(sdp) => Success(SessionDescription(kind, sdp))
                   case Failure(why) => Failure(NegotiationFailure(why))
    {
      steps := steps + [if kind == Offer then CreatedOffer else CreatedAnswer];
      r := match n.created
           case Success(sdp) => Success(SessionDescription(kind, sdp))
           case Failure(why) => Failure(NegotiationFailure(why));
    }

    /** `setLocalDescription(d)`: commits `d` when the negotiator accepts it. */
    method SetLocalDescription(d: SessionDescription, n: Negotiator) returns (ok: bool)
      modifies this`localDescription, this`steps
      ensures ok == n.acceptsLocal
      ensures steps == old(steps) + [AppliedLocal(d)]
      ensures localDescription == if ok then Some(d) else old(localDescription)
    {
      steps := steps + [AppliedLocal(d)];
      ok := n.acceptsLocal;
      if ok {
        localDescription := Some(d);
      }
    }

    /** `setRemoteDescription(d)`: commits `d` when the negotiator accepts it. */
    method SetRemoteDescription(d: SessionDescription, n: Negotiator) returns (ok: bool)
      modifies this`remoteDescription, this`steps
      ensures ok == n.acceptsRemote
      ensures steps == old(steps) + [AppliedRemote(d)]
      ensures remoteDescription == if ok then Some(d) else old(remoteDescription)
    {
      steps := steps + [AppliedRemote(d)];
      ok := n.acceptsRemote;
      if ok {
        remoteDescription := Some(d);
      }
    }

    /** `createOffer()` then `setLocalDescription(offer)`: the offer becomes
        the local description when the negotiator accepts it. */
    method NegotiateOffer(n: Negotiator) returns (r: Result<SessionDescription, CallError>)
      modifies this`localDescription, this`steps
      ensures match n.created
              case Failure(why) =>
                r == Failure(NegotiationFailure(why)) &&
                steps == old(steps) + [CreatedOffer] && localDescription == old(localDescription)
              case Success(sdp) =>
                var offer := SessionDescription(Offer, sdp);
                steps == old(steps) + [CreatedOffer, AppliedLocal(offer)] &&
                (n.acceptsLocal ==> r == Success(offer) && localDescription == Some(offer)) &&
                (!n.acceptsLocal ==> r.Failure? && localDescription == old(localDescription))
    {
      var offer := Create(Offer, n);
      if offer.Failure? {
        return Failure(offer.error);
      }
      var ok := SetLocalDescription(offer.value, n);
      if !ok {
        return Failure(NegotiationFailure("setLocalDescription"));
      }
      r := Success(offer.value);
    }

    /** `setRemoteDescription(offer)`, `createAnswer()`, then
        `setLocalDescription(answer)`: each step runs only when the one
        before it succeeded. */
    method NegotiateAnswer(offer: SessionDescription, n: Negotiator) returns (r: Result<SessionDescription, CallError>)
      modifies this`remoteDescription, this`localDescription, this`steps
      ensures !n.acceptsRemote ==>
                r.Failure? && steps == old(steps) + [AppliedRemote(offer)] &&
                localDescription == old(localDescription) && remoteDescription == old(remoteDescription)
      ensures n.acceptsRemote ==>
                remoteDescription == Some(offer) &&
                match n.created
                case Failure(why) =>
                  r == Failure(NegotiationFailure(why)) &&
                  steps == old(steps) + [AppliedRemote(offer), CreatedAnswer] &&
                  localDescription == old(localDescription)
                case Success(sdp) =>
                  var answer := SessionDescription(Answer, sdp);
                  steps == old(steps) + [AppliedRemote(offer), CreatedAnswer, AppliedLocal(answer)] &&
                  (n.acceptsLocal ==> r == Success(answer) && localDescription == Some(answer)) &&
                  (!n.acceptsLocal ==> r.Failure? && localDescription == old(localDescription))
    {
      var accepted := SetRemoteDescription(offer, n);
      if !accepted {
        return Failure(NegotiationFailure("setRemoteDescription"));
      }
      var answer := Create(Answer, n);
      if answer.Failure? {
        return Failure(answer.error);
      }
      var ok := SetLocalDescription(answer.value, n);
      if !ok {
        return Failure(NegotiationFailure("setLocalDescription"));
      }
      r := Success(answer.value);
    }

    /** `close()`. */
    method Close()
      modifies this`closed
      ensures closed
    {
      closed := true;
    }
  }

  /** `getUserMedia` once the device has granted `kinds`: a fresh stream of
      fresh, live, enabled tracks of those kinds, in that order. */
  method AcquireStream(kinds: seq<TrackKind>) returns (s: MediaStream)
    ensures fresh(s) && |s.tracks| == |kinds| && NoDuplicates(s.tracks)
    ensures forall i :: 0 <= i < |kinds| ==>
              fresh(s.tracks[i]) && s.tracks[i].kind == kinds[i] &&
              s.tracks[i].enabled && !s.tracks[i].stopped
  {
    var tracks: seq<MediaStreamTrack> := [];
    for i := 0 to |kinds|
      invariant |tracks| == i && NoDuplicates(tracks)
      invariant forall j :: 0 <= j < i ==>
                  fresh(tracks[j]) && tracks[j].kind == kinds[j] &&
                  tracks[j].enabled && !tracks[j].stopped
    {
      var t := new MediaStreamTrack(kinds[i]);
      tracks := tracks + [t];
    }
    s := new MediaStream(tracks);
  }

  /** `track.stop()` on each track, in order. */
  method StopAll(tracks: seq<MediaStreamTrack>)
    modifies set t | t in tracks
    ensures forall t :: t in tracks ==> t.stopped && t.enabled == old(t.enabled)
  {
    for i := 0 to |tracks|
      invariant forall j :: 0 <= j < i ==> tracks[j].stopped
      invariant forall t :: t in tracks ==> t.enabled == old(t.enabled)
    {
      tracks[i].Stop();
    }
  }

  /** `new RTCPeerConnection(configuration)`, every track of the stream
      attached in order, and `ontrack` registered. */
  method Connect(tracks: seq<MediaStreamTrack>) returns (pc: RTCPeerConnection)
    requires NoDuplicates(tracks)
    ensures fresh(pc) && pc.iceServers == IceServers && pc.senders == tracks && pc.steps == []
    ensures pc.localDescription.None? && pc.remoteDescription.None?
    ensures pc.hasTrackHandler && !pc.closed
  {
    pc := new RTCPeerConnection(IceServers);
    pc.AddTracks(tracks);
    pc.SetTrackHandler();
  }

  /** A stream of fresh, enabled tracks of the given kinds has a first track
      of a kind exactly when the kind was granted. */
  lemma {:induction false} FirstOfGrantedKind(tracks: seq<MediaStreamTrack>, kinds: seq<TrackKind>, k: TrackKind)
    requires |tracks| == |kinds|
    requires forall i :: 0 <= i < |kinds| ==> tracks[i].kind == kinds[i]
    ensures FirstOfKind(tracks, k).Some? <==> k in kinds
  {
    if k in kinds {
      var i :| 0 <= i < |kinds| && kinds[i] == k;
      assert tracks[i].kind == k;
    }
  }

  /** What a component reading the session observes. */
  datatype SessionView = SessionView(
    isCallActive: bool, isVideoEnabled: bool, isMuted: bool, remoteUserId: Option<string>,
    hasLocalStream: bool, hasPeerConnection: bool, hasRemoteStream: bool)

  /** The view after a full teardown. */
  function IdleView(): SessionView
  {
    SessionView(false, false, false, None, false, false, false)
  }

  /** What `startCall` and `answerCall` return on success. */
  datatype CallHandles = CallHandles(
    stream: MediaStream, connection: RTCPeerConnection, description: Option<SessionDescription>)

  /** The state behind `useWebRTC`. Each `onCallEnded` invocation is recorded
      in `notifications`, with the view it observes. */
  class CallSession {
    const hasEndedCallback: bool
    var isCallActive: bool
    var isVideoEnabled: bool
    var isMuted: bool
    var remoteUserId: Option<string>
    var localStream: MediaStream?
    var peerConnection: RTCPeerConnection?
    var remoteStream: MediaStream?
    var notifications: seq<SessionView>

    /** An active call holds a local stream and a peer connection. */
    ghost predicate Valid()
      reads this
    {
      isCallActive ==> localStream != null && peerConnection != null
    }

    function View(): SessionView
      reads this
    {
      SessionView(isCallActive, isVideoEnabled, isMuted, remoteUserId,
                  localStream != null, peerConnection != null, remoteStream != null)
    }

    /** The tracks of the local stream. */
    function LocalTracks(): set<MediaStreamTrack>
      reads this
    {
      if localStream == null then {} else set t | t in localStream.tracks
    }

    /** `isMuted` mirrors the first audio track. */
    ghost predicate AudioInSync()
      reads this, LocalTracks()
    {
      localStream != null ==>
        var a := FirstOfKind(localStream.tracks, Audio);
        a.Some? ==> isMuted == !a.value.enabled
    }

    /** `isVideoEnabled` mirrors the first video track. */
    ghost predicate VideoInSync()
      reads this, LocalTracks()
    {
      localStream != null ==>
        var v := FirstOfKind(localStream.tracks, Video);
        v.Some? ==> isVideoEnabled == v.value.enabled
    }

    /** Both flags mirror their tracks. */
    ghost predicate InSync()
      reads this, LocalTracks()
    {
      AudioInSync() && VideoInSync()
    }

    constructor (hasEndedCallback: bool)
      ensures this.hasEndedCallback == hasEndedCallback && Valid() && InSync()
      ensures View() == IdleView() && notifications == []
    {
      this.hasEndedCallback := hasEndedCallback;
      isCallActive, isVideoEnabled, isMuted := false, false, false;
      remoteUserId := None;
      localStream, peerConnection, remoteStream := null, null, null;
      notifications := [];
    }

    /** The steps `startCall` and `answerCall` share once the device has
        granted `kinds`: store the stream, set the flags, build a fresh peer
        connection, attach every track and register `ontrack`. */
    method Setup(userId: string, isVideo: bool, kinds: seq<TrackKind>)
      returns (stream: MediaStream, pc: RTCPeerConnection)
      modifies this
      ensures fresh(stream) && fresh(pc) && NoDuplicates(stream.tracks) && |stream.tracks| == |kinds|
      ensures forall i :: 0 <= i < |kinds| ==>
                fresh(stream.tracks[i]) && stream.tracks[i].kind == kinds[i] &&
                stream.tracks[i].enabled && !stream.tracks[i].stopped
      ensures localStream == stream && peerConnection == pc && remoteStream == old(remoteStream)
      ensures isCallActive && isVideoEnabled == isVideo && remoteUserId == Some(userId)
      ensures isMuted == old(isMuted) && notifications == old(notifications)
      ensures InSync() <==> ((Audio in kinds ==> !isMuted) && (Video in kinds ==> isVideo))
      ensures pc.iceServers == IceServers && pc.senders == stream.tracks && pc.steps == []
      ensures pc.localDescription.None? && pc.remoteDescription.None?
      ensures pc.hasTrackHandler && !pc.closed
    {
      stream := AcquireStream(kinds);
      localStream := stream;
      isCallActive := true;
      isVideoEnabled := isVideo;
      remoteUserId := Some(userId);
      pc := Connect(stream.tracks);
      peerConnection := pc;
      FirstOfGrantedKind(stream.tracks, kinds, Audio);
      FirstOfGrantedKind(stream.tracks, kinds, Video);
    }

    /** `startCall(userId, isVideo)`: every write follows the awaited media
        request, so a refusal changes nothing; a negotiation failure after
        it leaves the call marked active. Nothing held before is released. */
    method StartCall(userId: string, isVideo: bool, device: MediaConstraints -> Acquisition, n: Negotiator)
      returns (r: Result<CallHandles, CallError>)
      requires Valid()
      modifies this
      ensures Valid() && notifications == old(notifications)
      ensures old(localStream) != null ==> unchanged(old(LocalTracks()))
      ensures old(peerConnection) != null ==> unchanged(old(peerConnection))
      ensures device(Constraints(isVideo)).Refused? ==>
                r == Failure(DeviceFailure(device(Constraints(isVideo)).error)) &&
                View() == old(View()) && localStream == old(localStream) &&
                peerConnection == old(peerConnection) && remoteStream == old(remoteStream)
      ensures device(Constraints(isVideo)).Granted? ==>
                var kinds := device(Constraints(isVideo)).kinds;
                var pc := peerConnection;
                localStream != null && fresh(localStream) && pc != null && fresh(pc) &&
                |localStream.tracks| == |kinds| && NoDuplicates(localStream.tracks) &&
                (forall i :: 0 <= i < |kinds| ==>
                   fresh(localStream.tracks[i]) && localStream.tracks[i].kind == kinds[i] &&
                   localStream.tracks[i].enabled && !localStream.tracks[i].stopped) &&
                isCallActive && isVideoEnabled == isVideo && remoteUserId == Some(userId) &&
                isMuted == old(isMuted) && remoteStream == old(remoteStream) &&
                (InSync() <==> ((Audio in kinds ==> !old(isMuted)) && (Video in kinds ==> isVideo))) &&
                pc.iceServers == IceServers && pc.senders == localStream.tracks &&
                pc.hasTrackHandler && !pc.closed && pc.remoteDescription.None? &&
                match n.created
                case Failure(why) =>
                  r == Failure(NegotiationFailure(why)) &&
                  pc.steps == [CreatedOffer] && pc.localDescription.None?
                case Success(sdp) =>
                  var offer := SessionDescription(Offer, sdp);
                  pc.steps == [CreatedOffer, AppliedLocal(offer)] &&
                  (n.acceptsLocal ==>
                     r == Success(CallHandles(localStream, pc, Some(offer))) &&
                     pc.localDescription == Some(offer)) &&
                  (!n.acceptsLocal ==> r.Failure? && pc.localDescription.None?)
    {
      var got := device(Constraints(isVideo));
      if got.Refused? {
        return Failure(DeviceFailure(got.error));
      }
      var stream, pc := Setup(userId, isVideo, got.kinds);
      var offer := pc.NegotiateOffer(n);
      if offer.Failure? {
        return Failure(offer.error);
      }
      r := Success(CallHandles(stream, pc, Some(offer.value)));
    }

    /** `answerCall(userId, isVideo, offer)`: the same acquisition and setup;
        with an offer, the remote description is set before the answer is
        created, and the answer then becomes the local description. */
    method AnswerCall(userId: string, isVideo: bool, offer: Option<SessionDescription>,
                      device: MediaConstraints -> Acquisition, n: Negotiator)
      returns (r: Result<CallHandles, CallError>)
      requires Valid()
      modifies this
      ensures Valid() && notifications == old(notifications)
      ensures old(localStream) != null ==> unchanged(old(LocalTracks()))
      ensures old(peerConnection) != null ==> unchanged(old(peerConnection))
      ensures device(Constraints(isVideo)).Refused? ==>
                r == Failure(DeviceFailure(device(Constraints(isVideo)).error)) &&
                View() == old(View()) && localStream == old(localStream) &&
                peerConnection == old(peerConnection) && remoteStream == old(remoteStream)
      ensures device(Constraints(isVideo)).Granted? ==>
                var kinds := device(Constraints(isVideo)).kinds;
                var pc := peerConnection;
                localStream != null && fresh(localStream) && pc != null && fresh(pc) &&
                |localStream.tracks| == |kinds| && NoDuplicates(localStream.tracks) &&
                (forall i :: 0 <= i < |kinds| ==>
                   fresh(localStream.tracks[i]) && localStream.tracks[i].kind == kinds[i] &&
                   localStream.tracks[i].enabled && !localStream.tracks[i].stopped) &&
                isCallActive && isVideoEnabled == isVideo && remoteUserId == Some(userId) &&
                isMuted == old(isMuted) && remoteStream == old(remoteStream) &&
                (InSync() <==> ((Audio in kinds ==> !old(isMuted)) && (Video in kinds ==> isVideo))) &&
                pc.iceServers == IceServers && pc.senders == localStream.tracks &&
                pc.hasTrackHandler && !pc.closed &&
                if offer.None? then
                  r == Success(CallHandles(localStream, pc, None)) && pc.steps == [] &&
                  pc.localDescription.None? && pc.remoteDescription.None?
                else if !n.acceptsRemote then
                  r.Failure? && pc.steps == [AppliedRemote(offer.value)] &&
                  pc.localDescription.None? && pc.remoteDescription.None?
                else
                  pc.remoteDescription == Some(offer.value) &&
                  match n.created
                  case Failure(why) =>
                    r == Failure(NegotiationFailure(why)) &&
                    pc.steps == [AppliedRemote(offer.value), CreatedAnswer] &&
                    pc.localDescription.None?
                  case Success(sdp) =>
                    var answer := SessionDescription(Answer, sdp);
                    pc.steps == [AppliedRemote(offer.value), CreatedAnswer, AppliedLocal(answer)] &&
                    (n.acceptsLocal ==>
                       r == Success(CallHandles(localStream, pc, Some(answer))) &&
                       pc.localDescription == Some(answer)) &&
                    (!n.acceptsLocal ==> r.Failure? && pc.localDescription.None?)
    {
      var got := device(Constraints(isVideo));
      if got.Refused? {
        return Failure(DeviceFailure(got.error));
      }
      var stream, pc := Setup(userId, isVideo, got.kinds);
      if offer.None? {
        return Success(CallHandles(stream, pc, None));
      }
      var answer := pc.NegotiateAnswer(offer.value, n);
      if answer.Failure? {
        return Failure(answer.error);
      }
      r := Success(CallHandles(stream, pc, Some(answer.value)));
    }

    /** The `ontrack` handler: the first stream of the event becomes the
        remote stream (an event without streams clears it). Only a connection
        that is open and has the handler delivers the event. */
    method OnTrack(pc: RTCPeerConnection, streams: seq<MediaStream>)
      modifies this`remoteStream
      ensures remoteStream == if pc.hasTrackHandler && !pc.closed
                              then (if streams == [] then null else streams[0])
                              else old(remoteStream)
      ensures old(Valid()) ==> Valid()
    {
      if pc.hasTrackHandler && !pc.closed {
        remoteStream := if streams == [] then null else streams[0];
      }
    }

    /** `endCall()`: from any state, stops every local track, closes the
        connection, clears the three slots and the flags, then notifies. */
    method EndCall()
      modifies this, LocalTracks(), peerConnection
      ensures Valid() && InSync()
      ensures forall t :: t in old(LocalTracks()) ==> t.stopped && t.enabled == old(t.enabled)
      ensures old(peerConnection) != null ==>
                old(peerConnection).closed &&
                old(peerConnection).senders == old(peerConnection.senders) &&
                old(peerConnection).localDescription == old(peerConnection.localDescription) &&
                old(peerConnection).remoteDescription == old(peerConnection.remoteDescription) &&
                old(peerConnection).steps == old(peerConnection.steps) &&
                old(peerConnection).hasTrackHandler == old(peerConnection.hasTrackHandler)
      ensures localStream == null && peerConnection == null && remoteStream == null
      ensures !isCallActive && !isVideoEnabled && !isMuted && remoteUserId.None?
      ensures View() == IdleView()
      ensures notifications == old(notifications) + if hasEndedCallback then [IdleView()] else []
    {
      if localStream != null {
        StopAll(localStream.tracks);
        localStream := null;
      }
      if peerConnection != null {
        peerConnection.Close();
        peerConnection := null;
      }
      remoteStream := null;
      isCallActive := false;
      isVideoEnabled := false;
      isMuted := false;
      remoteUserId := None;
      if hasEndedCallback {
        notifications := notifications + [View()];
      }
    }

    /** The unmount cleanup of the hook: `endCall()`. */
    method Dispose()
      modifies this, LocalTracks(), peerConnection
      ensures Valid() && InSync()
      ensures forall t :: t in old(LocalTracks()) ==> t.stopped && t.enabled == old(t.enabled)
      ensures old(peerConnection) != null ==>
                old(peerConnection).closed &&
                old(peerConnection).senders == old(peerConnection.senders) &&
                old(peerConnection).localDescription == old(peerConnection.localDescription) &&
                old(peerConnection).remoteDescription == old(peerConnection.remoteDescription) &&
                old(peerConnection).steps == old(peerConnection.steps) &&
                old(peerConnection).hasTrackHandler == old(peerConnection.hasTrackHandler)
      ensures View() == IdleView()
      ensures notifications == old(notifications) + if hasEndedCallback then [IdleView()] else []
    {
      EndCall();
    }

    /** `toggleMute()`: flips the first audio track and mirrors it in `isMuted`. */
    method ToggleMute()
      modifies this`isMuted, LocalTracks()
      ensures localStream == old(localStream)
      ensures forall t :: t in LocalTracks() ==> t.stopped == old(t.stopped)
      ensures localStream == null || FirstOfKind(localStream.tracks, Audio).None? ==>
                isMuted == old(isMuted) &&
                forall t :: t in LocalTracks() ==> t.enabled == old(t.enabled)
      ensures localStream != null && FirstOfKind(localStream.tracks, Audio).Some? ==>
                var a := FirstOfKind(localStream.tracks, Audio).value;
                a.enabled == !old(a.enabled) && isMuted == !a.enabled &&
                forall t :: t in LocalTracks() && t != a ==> t.enabled == old(t.enabled)
      ensures old(Valid()) ==> Valid()
      ensures old(AudioInSync()) ==> AudioInSync()
      ensures old(VideoInSync()) ==> VideoInSync()
    {
      if localStream != null {
        var a := FirstOfKind(localStream.tracks, Audio);
        if a.Some? {
          a.value.enabled := !a.value.enabled;
          isMuted := !a.value.enabled;
        }
      }
    }

    /** `toggleVideo()`: flips the first video track and mirrors it in
        `isVideoEnabled`. */
    method ToggleVideo()
      modifies this`isVideoEnabled, LocalTracks()
      ensures localStream == old(localStream)
      ensures forall t :: t in LocalTracks() ==> t.stopped == old(t.stopped)
      ensures localStream == null || FirstOfKind(localStream.tracks, Video).None? ==>
                isVideoEnabled == old(isVideoEnabled) &&
                forall t :: t in LocalTracks() ==> t.enabled == old(t.enabled)
      ensures localStream != null && FirstOfKind(localStream.tracks, Video).Some? ==>
                var v := FirstOfKind(localStream.tracks, Video).value;
                v.enabled == !old(v.enabled) && isVideoEnabled == v.enabled &&
                forall t :: t in LocalTracks() && t != v ==> t.enabled == old(t.enabled)
      ensures old(Valid()) ==> Valid()
      ensures old(VideoInSync()) ==> VideoInSync()
      ensures old(AudioInSync()) ==> AudioInSync()
    {
      if localStream != null {
        var v := FirstOfKind(localStream.tracks, Video);
        if v.Some? {
          v.value.enabled := !v.value.enabled;
          isVideoEnabled := v.value.enabled;
        }
      }
    }
  }

  /** Muting twice restores every track and, when `isMuted` mirrored the
      audio track, the flag. */
  method MuteTwice(s: CallSession)
    modifies s`isMuted, s.LocalTracks()
    ensures forall t :: t in s.LocalTracks() ==> t.enabled == old(t.enabled)
    ensures old(s.AudioInSync()) ==> s.isMuted == old(s.isMuted)
  {
    s.ToggleMute();
    s.ToggleMute();
  }

  /** Turning video off and on restores every track and, when
      `isVideoEnabled` mirrored the video track, the flag. */
  method VideoTwice(s: CallSession)
    modifies s`isVideoEnabled, s.LocalTracks()
    ensures forall t :: t in s.LocalTracks() ==> t.enabled == old(t.enabled)
    ensures old(s.VideoInSync()) ==> s.isVideoEnabled == old(s.isVideoEnabled)
  {
    s.ToggleVideo();
    s.ToggleVideo();
  }

  /** A second `endCall` leaves the same state as the first and notifies again. */
  method EndCallTwice(s: CallSession)
    modifies s, s.LocalTracks(), s.peerConnection
    ensures s.View() == IdleView()
    ensures s.notifications == old(s.notifications) +
              if s.hasEndedCallback then [IdleView(), IdleView()] else []
  {
    s.EndCall();
    var once := s.View();
    s.EndCall();
    assert s.View() == once;
  }
}
