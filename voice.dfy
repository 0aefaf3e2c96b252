/** `hooks/useVoice.tsx`: the voice room's bookkeeping. The hook keeps the roster,
    the open calls and the received audio by peer id, and reacts to socket and call
    events one at a time. PeerJS peers and calls and the browser's media streams and
    tracks appear only through the effects the hook has on them: a call is placed,
    answered or closed, a track is enabled or stopped, a peer is destroyed. */
module Voice {
  import opened Options
  import opened Seqs

  datatype VoiceUserInfo = VoiceUserInfo(userId: string, displayName: string, peerId: string)

  datatype VoiceParticipant = VoiceParticipant(socketId: string, userInfo: VoiceUserInfo)

  /** A remote audio stream; its contents are not inspected. */
  datatype RemoteStream = RemoteStream(id: string)

  datatype TrackKind = Audio | Video

  /** The STUN servers given to the peer. */
  const IceServers: seq<string> := ["stun:stun.l.google.com:19302", "stun:stun1.l.google.com:19302"]

  class Track {
    const kind: TrackKind
    var enabled: bool
    var stopped: bool

    constructor (kind: TrackKind)
      ensures this.kind == kind && enabled && !stopped
    {
      this.kind := kind;
      enabled, stopped := true, false;
    }
  }

  /** The microphone stream `getUserMedia` returns. */
  class LocalStream {
    const tracks: seq<Track>

    constructor (tracks: seq<Track>)
      ensures this.tracks == tracks
    {
      this.tracks := tracks;
    }
  }

  /** A media connection to one remote peer. */
  class Call {
    /** The remote peer's id. */
    const peer: string
    /** The stream sent with an outgoing call; null for an incoming one. */
    const outgoing: LocalStream?
    var answeredWith: LocalStream?
    var closed: bool

    constructor (peer: string, outgoing: LocalStream?)
      ensures this.peer == peer && this.outgoing == outgoing && answeredWith == null && !closed
    {
      this.peer, this.outgoing := peer, outgoing;
      answeredWith, closed := null, false;
    }

    method Answer(stream: LocalStream)
      modifies this
      ensures answeredWith == stream && closed == old(closed)
    {
      answeredWith := stream;
    }

    method Close()
      modifies this
      ensures closed && answeredWith == old(answeredWith)
    {
      closed := true;
    }
  }

  /** The local PeerJS peer. */
  class Peer {
    const id: string
    var destroyed: bool

    constructor (id: string)
      ensures this.id == id && !destroyed
    {
      this.id := id;
      destroyed := false;
    }

    /** `peer.call(peerId, stream)`: a new call to that peer carrying the stream. */
    method PlaceCall(peerId: string, stream: LocalStream) returns (c: Call)
      ensures fresh(c) && c.peer == peerId && c.outgoing == stream && c.answeredWith == null && !c.closed
    {
      c := new Call(peerId, stream);
    }

    method Destroy()
      modifies this
      ensures destroyed
    {
      destroyed := true;
    }
  }

  /** What the hook sends through the voice socket helpers. */
  datatype VoiceEmit =
    | ConnectVoiceSocket
    | JoinVoiceRoom(roomId: string, userInfo: VoiceUserInfo)
    | ToggleVoiceMic(roomId: string, enabled: bool)
    | DisconnectVoiceSocket

  /** The peer ids `existing-users` calls, in roster order: everyone but oneself. */
  function PeersToCall(users: seq<VoiceParticipant>, self: string): (r: seq<string>)
    ensures |r| <= |users|
    ensures forall id :: id in r <==> id != self && exists i :: 0 <= i < |users| && users[i].userInfo.peerId == id
  {
    if users == [] then []
    else
      var init, last := users[..|users| - 1], users[|users| - 1];
      var r := PeersToCall(init, self) + (if last.userInfo.peerId != self then [last.userInfo.peerId] else []);
      assert forall i :: 0 <= i < |init| ==> init[i] == users[i];
      r
  }

  /** Taking one more user of the list adds that user's peer id unless it is one's own. */
  lemma PeersToCallStep(users: seq<VoiceParticipant>, i: nat, self: string)
    requires i < |users|
    ensures PeersToCall(users[..i + 1], self)
      == PeersToCall(users[..i], self) + (if users[i].userInfo.peerId != self then [users[i].userInfo.peerId] else [])
  {
    assert users[..i + 1][..i] == users[..i];
  }

  /** The hook's state, without the objects it points to. */
  datatype VoiceState = VoiceState(
    connected: bool,
    participants: seq<VoiceParticipant>,
    peerConnections: map<string, Call>,
    audioStreams: map<string, RemoteStream>,
    micOn: bool,
    localStream: LocalStream?,
    peer: Peer?,
    emitted: seq<VoiceEmit>)

  /** `track.enabled = on` for every audio track of a stream. */
  method EnableAudio(tracks: seq<Track>, on: bool)
    modifies set t | t in tracks
    ensures forall t :: t in tracks && t.kind == Audio ==> t.enabled == on
    ensures forall t :: t in tracks && t.kind != Audio ==> t.enabled == old(t.enabled)
    ensures forall t :: t in tracks ==> t.stopped == old(t.stopped)
  {
    var i := 0;
    while i < |tracks|
      invariant 0 <= i <= |tracks|
      invariant forall k :: 0 <= k < i && tracks[k].kind == Audio ==> tracks[k].enabled == on
      invariant forall t :: t in tracks && t.kind != Audio ==> t.enabled == old(t.enabled)
      invariant forall t :: t in tracks ==> t.stopped == old(t.stopped)
    {
      if tracks[i].kind == Audio {
        tracks[i].enabled := on;
      }
      i := i + 1;
    }
  }

  /** `track.stop()` for every track of a stream. */
  method StopAll(tracks: seq<Track>)
    modifies set t | t in tracks
    ensures forall t :: t in tracks ==> t.stopped && t.enabled == old(t.enabled)
  {
    var i := 0;
    while i < |tracks|
      invariant 0 <= i <= |tracks|
      invariant forall k :: 0 <= k < i ==> tracks[k].stopped
      invariant forall t :: t in tracks ==> t.enabled == old(t.enabled)
    {
      tracks[i].stopped := true;
      i := i + 1;
    }
  }

  /** `call.close()` for every registered call. */
  method CloseAll(calls: set<Call>)
    modifies calls
    ensures forall c :: c in calls ==> c.closed && c.answeredWith == old(c.answeredWith)
  {
    var remaining := calls;
    while remaining != {}
      invariant remaining <= calls
      invariant forall c :: c in calls - remaining ==> c.closed
      invariant forall c :: c in calls ==> c.answeredWith == old(c.answeredWith)
      decreases remaining
    {
      var c :| c in remaining;
      c.Close();
      remaining := remaining - {c};
    }
  }

  class VoiceSession {
    const roomId: string
    const userInfo: VoiceUserInfo
    var connected: bool
    var participants: seq<VoiceParticipant>
    var peerConnections: map<string, Call>
    var audioStreams: map<string, RemoteStream>
    var micOn: bool
    /** `localStreamRef` (the `localStream` state always holds the same stream). */
    var localStream: LocalStream?
    /** `peerRef`. */
    var peer: Peer?
    /** What has gone out through the socket helpers, oldest first. */
    var emitted: seq<VoiceEmit>

    function State(): VoiceState
      reads this
    {
      VoiceState(connected, participants, peerConnections, audioStreams, micOn, localStream, peer, emitted)
    }

    /** Each registered call is stored under its own remote peer's id; `Map.set`
        keeps at most one call per id. */
    predicate Valid()
      reads this
    {
      forall p :: p in peerConnections ==> peerConnections[p].peer == p
    }

    /** Nothing is left to close, stop or destroy. */
    predicate Released()
      reads this
    {
      && !connected && participants == [] && peerConnections == map[] && audioStreams == map[]
      && localStream == null && peer == null
    }

    /** The tracks of the current local stream. */
    function LocalTracks(): set<Track>
      reads this
    {
      if localStream == null then {} else set t | t in localStream.tracks
    }

    /** Calls can be placed once both the peer and the local stream exist. */
    predicate Ready()
      reads this
    {
      peer != null && localStream != null
    }

    constructor (roomId: string, userInfo: VoiceUserInfo, micEnabled: bool)
      ensures Valid() && Released()
      ensures this.roomId == roomId && this.userInfo == userInfo && micOn == micEnabled && emitted == []
    {
      this.roomId, this.userInfo := roomId, userInfo;
      connected, participants, peerConnections, audioStreams := false, [], map[], map[];
      micOn, localStream, peer, emitted := micEnabled, null, null, [];
    }

    /** `initializeLocalStream` with what `getUserMedia` produced (null when it
        failed): a new stream becomes the local stream with its audio tracks enabled
        exactly when the microphone is on. */
    method InitializeLocalStream(acquired: LocalStream?) returns (stream: LocalStream?)
      modifies this, if acquired == null then {} else set t | t in acquired.tracks
      ensures stream == acquired
      ensures acquired == null ==> State() == old(State())
      ensures acquired != null ==> State() == old(State()).(localStream := acquired)
      ensures acquired != null ==> forall t :: t in acquired.tracks && t.kind == Audio ==> t.enabled == micOn
      ensures acquired != null ==> forall t :: t in acquired.tracks && t.kind != Audio ==> t.enabled == old(t.enabled)
      ensures acquired != null ==> forall t :: t in acquired.tracks ==> t.stopped == old(t.stopped)
      ensures Valid() == old(Valid())
    {
      if acquired == null {
        return null;
      }
      localStream := acquired;
      EnableAudio(acquired.tracks, micOn);
      stream := acquired;
    }

    /** `initializePeer`: a new peer under the user's own peer id becomes `peerRef`. */
    method InitializePeer() returns (p: Peer)
      modifies this
      ensures fresh(p) && p.id == userInfo.peerId && !p.destroyed
      ensures State() == old(State()).(peer := p)
      ensures Valid() == old(Valid())
    {
      p := new Peer(userInfo.peerId);
      peer := p;
    }

    /** The mount effect: the local stream, then the peer, then the socket. */
    method Mount(acquired: LocalStream?)
      modifies this, if acquired == null then {} else set t | t in acquired.tracks
      ensures peer != null && fresh(peer) && peer.id == userInfo.peerId && !peer.destroyed
      ensures localStream == (if acquired == null then old(localStream) else acquired)
      ensures emitted == old(emitted) + [ConnectVoiceSocket]
      ensures participants == old(participants) && peerConnections == old(peerConnections)
      ensures audioStreams == old(audioStreams) && connected == old(connected) && micOn == old(micOn)
      ensures acquired != null ==> forall t :: t in acquired.tracks && t.kind == Audio ==> t.enabled == micOn
      ensures acquired != null ==> forall t :: t in acquired.tracks && t.kind != Audio ==> t.enabled == old(t.enabled)
      ensures acquired != null ==> forall t :: t in acquired.tracks ==> t.stopped == old(t.stopped)
      ensures Valid() == old(Valid())
    {
      var _ := InitializeLocalStream(acquired);
      var _ := InitializePeer();
      emitted := emitted + [ConnectVoiceSocket];
    }

    /** The socket's `connect`: connected, and the room is joined. */
    method OnSocketConnect()
      modifies this
      ensures State() == old(State()).(connected := true, emitted := old(emitted) + [JoinVoiceRoom(roomId, userInfo)])
      ensures Valid() == old(Valid())
    {
      connected := true;
      emitted := emitted + [JoinVoiceRoom(roomId, userInfo)];
    }

    method OnSocketDisconnect()
      modifies this
      ensures State() == old(State()).(connected := false)
      ensures Valid() == old(Valid())
    {
      connected := false;
    }

    /** `callPeer`: nothing without a peer or a local stream; otherwise a new call to
        that peer replaces any call registered under the id. */
    method CallPeer(peerId: string) returns (c: Call?)
      requires Valid()
      modifies this
      ensures Valid()
      ensures !old(Ready()) ==> c == null && State() == old(State())
      ensures old(Ready()) ==>
        && c != null && fresh(c) && c.peer == peerId && c.outgoing == localStream && !c.closed
        && State() == old(State()).(peerConnections := old(peerConnections)[peerId := c])
    {
      if peer == null || localStream == null {
        return null;
      }
      c := peer.PlaceCall(peerId, localStream);
      peerConnections := peerConnections[peerId := c];
    }

    /** One step of `existing-users`: the user is called unless the id is one's own. */
    method CallUnlessSelf(id: string) returns (c: Call?)
      requires Valid()
      modifies this
      ensures Valid()
      ensures c != null <==> old(Ready()) && id != userInfo.peerId
      ensures c != null ==> fresh(c) && !c.closed && c.outgoing == localStream && peerConnections == old(peerConnections)[id := c]
      ensures c == null ==> peerConnections == old(peerConnections)
      ensures connected == old(connected) && participants == old(participants) && audioStreams == old(audioStreams)
      ensures micOn == old(micOn) && localStream == old(localStream) && peer == old(peer) && emitted == old(emitted)
    {
      c := null;
      if id != userInfo.peerId {
        c := CallPeer(id);
      }
    }

    /** `existing-users`: the roster becomes the received list, and every user but
        oneself is called, in order. */
    method OnExistingUsers(users: seq<VoiceParticipant>) returns (placed: seq<string>)
      requires Valid()
      modifies this
      ensures Valid()
      ensures placed == if old(Ready()) then PeersToCall(users, userInfo.peerId) else []
      ensures participants == users
      ensures forall p :: p in peerConnections <==> p in old(peerConnections) || p in placed
      ensures forall p :: p in old(peerConnections) && p !in placed ==> peerConnections[p] == old(peerConnections)[p]
      ensures forall p :: p in placed ==>
        fresh(peerConnections[p]) && !peerConnections[p].closed && peerConnections[p].outgoing == localStream
      ensures connected == old(connected) && audioStreams == old(audioStreams) && micOn == old(micOn)
      ensures localStream == old(localStream) && peer == old(peer) && emitted == old(emitted)
    {
      participants := users;
      placed := [];
      var i := 0;
      while i < |users|
        invariant 0 <= i <= |users| && Valid()
        invariant placed == if old(Ready()) then PeersToCall(users[..i], userInfo.peerId) else []
        invariant participants == users
        invariant forall p :: p in peerConnections <==> p in old(peerConnections) || p in placed
        invariant forall p :: p in old(peerConnections) && p !in placed ==> peerConnections[p] == old(peerConnections)[p]
        invariant forall p :: p in placed ==> fresh(peerConnections[p]) && !peerConnections[p].closed
        invariant forall p :: p in placed ==> peerConnections[p].outgoing == localStream
        invariant connected == old(connected) && audioStreams == old(audioStreams) && micOn == old(micOn)
        invariant localStream == old(localStream) && peer == old(peer) && emitted == old(emitted)
      {
        PeersToCallStep(users, i, userInfo.peerId);
        var c := CallUnlessSelf(users[i].userInfo.peerId);
        if c != null {
          placed := placed + [users[i].userInfo.peerId];
        }
        i := i + 1;
      }
      assert users[..|users|] == users;
    }

    /** `user-joined`: the newcomer is appended, even when already listed, and called. */
    method OnUserJoined(data: VoiceParticipant) returns (c: Call?)
      requires Valid()
      modifies this
      ensures Valid()
      ensures participants == old(participants) + [data]
      ensures !old(Ready()) ==> c == null && peerConnections == old(peerConnections)
      ensures old(Ready()) ==>
        c != null && fresh(c) && c.peer == data.userInfo.peerId && c.outgoing == localStream && !c.closed
        && peerConnections == old(peerConnections)[data.userInfo.peerId := c]
      ensures State().(participants := [], peerConnections := map[]) == old(State()).(participants := [], peerConnections := map[])
    {
      participants := participants + [data];
      c := CallPeer(data.userInfo.peerId);
    }

    /** `user-left`: every roster entry with that socket id goes; the rest keep their
        order. The calls are left to their own close events. */
    method OnUserLeft(data: VoiceParticipant)
      modifies this
      ensures State() == old(State()).(participants := Remaining(old(participants), data.socketId))
      ensures Valid() == old(Valid())
    {
      participants := Remaining(participants, data.socketId);
    }

    /** An incoming call: the local stream, or a newly acquired one when there is
        none, answers it and the call is registered under the caller's id. Without
        any stream the call is neither answered nor registered. */
    method OnIncomingCall(c: Call, acquired: LocalStream?)
      requires Valid()
      modifies this, c, if acquired == null then {} else set t | t in acquired.tracks
      ensures Valid()
      ensures var stream := if old(localStream) != null then old(localStream) else acquired;
        && (stream == null ==> State() == old(State()) && c.answeredWith == old(c.answeredWith))
        && (stream != null ==>
              && c.answeredWith == stream
              && State() == old(State()).(localStream := stream, peerConnections := old(peerConnections)[c.peer := c]))
      ensures c.closed == old(c.closed)
      ensures old(localStream) == null && acquired != null ==>
        forall t :: t in acquired.tracks && t.kind == Audio ==> t.enabled == micOn
      ensures old(localStream) == null && acquired != null ==>
        forall t :: t in acquired.tracks && t.kind != Audio ==> t.enabled == old(t.enabled)
      ensures old(localStream) != null && acquired != null ==>
        forall t :: t in acquired.tracks ==> t.enabled == old(t.enabled)
      ensures acquired != null ==> forall t :: t in acquired.tracks ==> t.stopped == old(t.stopped)
    {
      var stream := localStream;
      if stream == null {
        stream := InitializeLocalStream(acquired);
      }
      if stream != null {
        c.Answer(stream);
        peerConnections := peerConnections[c.peer := c];
      }
    }

    /** A call's `stream` event: the remote audio is stored under the call's peer id,
        replacing any earlier stream for it. */
    method OnCallStream(c: Call, s: RemoteStream)
      modifies this
      ensures State() == old(State()).(audioStreams := old(audioStreams)[c.peer := s])
      ensures Valid() == old(Valid())
    {
      audioStreams := audioStreams[c.peer := s];
    }

    /** A call's `close` event: its peer id leaves both maps; every other peer's
        entries are unchanged. */
    method OnCallClose(c: Call)
      requires Valid()
      modifies this
      ensures Valid()
      ensures State() == old(State()).(
        audioStreams := old(audioStreams) - {c.peer},
        peerConnections := old(peerConnections) - {c.peer})
    {
      audioStreams := audioStreams - {c.peer};
      peerConnections := peerConnections - {c.peer};
    }

    /** `toggleMic`: the microphone flag flips, every local audio track follows it,
        and the room is told. */
    method ToggleMic()
      modifies this, LocalTracks()
      ensures State() == old(State()).(micOn := !old(micOn), emitted := old(emitted) + [ToggleVoiceMic(roomId, !old(micOn))])
      ensures forall t :: t in LocalTracks() && t.kind == Audio ==> t.enabled == micOn
      ensures forall t :: t in LocalTracks() && t.kind != Audio ==> t.enabled == old(t.enabled)
      ensures forall t :: t in LocalTracks() ==> t.stopped == old(t.stopped)
      ensures Valid() == old(Valid())
    {
      var newMicState := !micOn;
      micOn := newMicState;
      if localStream != null {
        EnableAudio(localStream.tracks, newMicState);
      }
      emitted := emitted + [ToggleVoiceMic(roomId, newMicState)];
    }

    /** Closes every registered call and stops every local track; the session's own
        fields are untouched. */
    method ReleaseMedia()
      modifies peerConnections.Values, LocalTracks()
      ensures forall c :: c in peerConnections.Values ==> c.closed
      ensures forall t :: t in LocalTracks() ==> t.stopped
    {
      CloseAll(peerConnections.Values);
      if localStream != null {
        StopAll(localStream.tracks);
      }
    }

    /** `leaveVoiceRoom`: every registered call is closed, every local track stopped,
        the socket disconnected and the peer destroyed; then everything is released.
        A second leave finds no call, track or peer it could touch. */
    method LeaveVoiceRoom()
      modifies this, peerConnections.Values, LocalTracks(), peer
      ensures Valid() && Released()
      ensures forall c :: c in old(peerConnections).Values ==> c.closed
      ensures forall t :: t in old(LocalTracks()) ==> t.stopped
      ensures old(peer) != null ==> old(peer).destroyed
      ensures emitted == old(emitted) + [DisconnectVoiceSocket] && micOn == old(micOn)
    {
      ReleaseMedia();
      Disconnect();
    }

    /** The rest of `leaveVoiceRoom`: the socket is disconnected, the peer destroyed
        and every piece of state released. */
    method Disconnect()
      modifies this, peer
      ensures Valid() && Released()
      ensures old(peer) != null ==> old(peer).destroyed
      ensures emitted == old(emitted) + [DisconnectVoiceSocket] && micOn == old(micOn)
    {
      emitted := emitted + [DisconnectVoiceSocket];
      var p := peer;
      if p != null {
        p.Destroy();
      }
      connected, participants, peerConnections, audioStreams := false, [], map[], map[];
      localStream, peer := null, null;
    }
  }

  /** The roster after `user-left` for `socketId`: `prev.filter(p => p.socketId !== socketId)`. */
  function Remaining(participants: seq<VoiceParticipant>, socketId: string): (r: seq<VoiceParticipant>)
    ensures IsSubsequence(r, participants)
    ensures forall p :: p in r <==> p in participants && p.socketId != socketId
  {
    FilterIsSubsequence(participants, (p: VoiceParticipant) => p.socketId != socketId);
    Filter(participants, (p: VoiceParticipant) => p.socketId != socketId)
  }
}
