/**
 * The browser-side signalling controller (public/index.js): the page's
 * module-level state and the socket, WebRTC, media and timer callbacks that
 * change it.
 *
 * Every asynchronous browser call the page makes (getUserMedia, createOffer,
 * setRemoteDescription, ...) is appended to `calls`; the callback that runs
 * when that call settles is a separate method taking the outcome as a
 * parameter. Socket emits are appended to `sent`.
 */
module Signalling {
  import opened Wrappers
  import opened Protocol

  datatype Kind = Audio | Video

  /** A media track; tracks are compared by identity, as MediaStream does. */
  datatype MediaTrack = MediaTrack(id: nat, kind: Kind)

  /** The tracks of a local MediaStream, in `getTracks()` order. */
  type Stream = seq<MediaTrack>

  /** The RTCPeerConnection: the tracks added to it and the descriptions applied to it. */
  datatype Peer = Peer(
    senders: seq<MediaTrack>,
    remoteDescription: Option<Envelope>,
    localDescription: Option<Envelope>)

  const NEW_PEER: Peer := Peer([], None, None)

  /** An asynchronous call into the browser whose settlement is reported later. */
  datatype Call =
    | FetchRoomId
    | GetCamera(thenMicrophone: bool)
    | GetMicrophone
    | CreateOffer
    | CreateAnswer
    | SetRemote(desc: Envelope)
    | SetLocal(desc: Envelope)
    | AddCandidate(candidate: IceCandidate)

  function Tracks(s: Option<Stream>): Stream {
    if s.Some? then s.value else []
  }

  // ---------------------------------------------------------------------
  // The page URL
  // ---------------------------------------------------------------------

  /** `href.split("?")[0]`: the part of `href` before its first `?`. */
  function BeforeQuery(href: string): (base: string)
    ensures base <= href && '?' !in base
    ensures |base| < |href| ==> href[|base|] == '?'
  {
    if href == [] || href[0] == '?' then []
    else [href[0]] + BeforeQuery(href[1..])
  }

  /** The part of `href` after its first `?`, empty when there is none. */
  function AfterQuery(href: string): string {
    var base := BeforeQuery(href);
    if |base| < |href| then href[|base| + 1..] else ""
  }

  const CODE_PARAM: string := "?code="

  /** The address `updateURL` installs: the page address, plus the room code when there is one. */
  function BuildUrl(href: string, room: Option<string>): (url: string)
    ensures BeforeQuery(href) <= url
    ensures url == BeforeQuery(href) <==> room.None? || |room.value| == 0
  {
    var base := BeforeQuery(href);
    if room.Some? && |room.value| > 0 then base + CODE_PARAM + room.value else base
  }

  lemma {:induction false} NoQueryIsWhole(s: string)
    requires '?' !in s
    ensures BeforeQuery(s) == s
    decreases |s|
  {
    if s != [] {
      NoQueryIsWhole(s[1..]);
    }
  }

  lemma {:induction false} SplitAtFirstQuery(base: string, rest: string)
    requires '?' !in base
    ensures BeforeQuery(base + "?" + rest) == base
    ensures AfterQuery(base + "?" + rest) == rest
    decreases |base|
  {
    if base != [] {
      assert (base + "?" + rest)[1..] == base[1..] + "?" + rest;
      SplitAtFirstQuery(base[1..], rest);
    }
  }

  /** The address built for a room still names the same page. */
  lemma UrlKeepsPage(href: string, room: Option<string>)
    ensures BeforeQuery(BuildUrl(href, room)) == BeforeQuery(href)
  {
    var base := BeforeQuery(href);
    if room.Some? && |room.value| > 0 {
      assert base + CODE_PARAM + room.value == base + "?" + ("code=" + room.value);
      SplitAtFirstQuery(base, "code=" + room.value);
    } else {
      NoQueryIsWhole(base);
    }
  }

  /** The room code can be read back from the query of the address built for it. */
  lemma UrlCarriesRoom(href: string, code: string)
    requires |code| > 0
    ensures AfterQuery(BuildUrl(href, Some(code))) == "code=" + code
  {
    var base := BeforeQuery(href);
    assert base + CODE_PARAM + code == base + "?" + ("code=" + code);
    SplitAtFirstQuery(base, "code=" + code);
  }

  /** Rebuilding the address changes nothing, and building it without a room strips the code. */
  lemma UrlRebuild(href: string, room: Option<string>)
    ensures BuildUrl(BuildUrl(href, room), room) == BuildUrl(href, room)
    ensures BuildUrl(BuildUrl(href, room), None) == BeforeQuery(href)
  {
    UrlKeepsPage(href, room);
  }

  // ---------------------------------------------------------------------
  // Status updates and remote tracks
  // ---------------------------------------------------------------------

  /** The `statusUpdate` message `sendUpdateMessage` emits. */
  function StatusPayload(audio: Option<Stream>, video: Option<Stream>, name: string): (m: Envelope)
    ensures m.StatusUpdate? && m.name == name
    ensures m.audio <==> audio.Some?
    ensures m.video <==> video.Some?
  {
    StatusUpdate(audio.Some?, video.Some?, name)
  }

  /** `tracks` with every track of `kind` removed, the others kept in order. */
  function WithoutKind(tracks: seq<MediaTrack>, kind: Kind): (kept: seq<MediaTrack>)
    ensures |kept| <= |tracks|
    ensures forall t :: t in kept <==> t in tracks && t.kind != kind
  {
    if tracks == [] then []
    else
      var init := tracks[..|tracks| - 1];
      var last := tracks[|tracks| - 1];
      assert tracks == init + [last];
      var rest := WithoutKind(init, kind);
      if last.kind == kind then rest else rest + [last]
  }

  /** The remote tracks left after a status update reporting `audio` and `video`. */
  function AfterStatus(tracks: seq<MediaTrack>, audio: bool, video: bool): (after: seq<MediaTrack>)
    ensures |after| <= |tracks|
    ensures forall t :: t in after <==> t in tracks && (audio || t.kind != Audio) && (video || t.kind != Video)
    ensures audio && video ==> after == tracks
  {
    var heard := if audio then tracks else WithoutKind(tracks, Audio);
    if video then heard else WithoutKind(heard, Video)
  }

  /**
   * A status update sent by one page and applied by the other never adds
   * remote tracks, and leaves no audio (video) track once the sender has no
   * microphone (camera).
   */
  lemma StatusRoundTrip(audio: Option<Stream>, video: Option<Stream>, name: string, tracks: seq<MediaTrack>)
    ensures var m := StatusPayload(audio, video, name);
      var after := AfterStatus(tracks, m.audio, m.video);
      && (forall t :: t in after ==> t in tracks)
      && (audio.None? ==> forall t :: t in after ==> t.kind != Audio)
      && (video.None? ==> forall t :: t in after ==> t.kind != Video)
      && (audio.Some? && video.Some? ==> after == tracks)
  {
  }

  /** The `getAudioTracks()/getVideoTracks().forEach(removeTrack)` loop. */
  method StripKind(tracks: seq<MediaTrack>, kind: Kind) returns (kept: seq<MediaTrack>)
    ensures kept == WithoutKind(tracks, kind)
  {
    kept := [];
    for i := 0 to |tracks|
      invariant kept == WithoutKind(tracks[..i], kind)
    {
      assert tracks[..i + 1][..i] == tracks[..i];
      if tracks[i].kind != kind {
        kept := kept + [tracks[i]];
      }
    }
    assert tracks[..|tracks|] == tracks;
  }

  // ---------------------------------------------------------------------
  // The page
  // ---------------------------------------------------------------------

  class Client {
    var initiator: bool
    var room: Option<string>
    var connection: Option<Peer>
    /** The id of the last timer armed; 0 before the first. */
    var inactivityTimer: nat
    /** Timers armed and neither cleared nor fired. */
    var pendingTimers: set<nat>
    /** The id the next `setTimeout` returns. */
    var nextTimerId: nat
    var audioInput: Option<Stream>
    var videoInput: Option<Stream>
    /** Every local track stopped, in order. */
    var stoppedTracks: seq<MediaTrack>
    var selfName: string
    var remoteName: string
    var remoteStream: Option<seq<MediaTrack>>
    var location: string
    var sent: seq<ClientEvent>
    var calls: seq<Call>

    /**
     * At most one inactivity timer is pending and it is the last one armed;
     * a page that created a room, or holds a connection, has a remote stream.
     */
    ghost predicate Valid()
      reads this
    {
      && 0 < nextTimerId && inactivityTimer < nextTimerId
      && 0 !in pendingTimers && pendingTimers <= {inactivityTimer}
      && (initiator ==> remoteStream.Some?)
      && (connection.Some? ==> remoteStream.Some?)
    }

    /** The inactivity timer has been re-armed: the only pending timer is a new one. */
    twostate predicate Restarted()
      reads this
    {
      old(nextTimerId) <= inactivityTimer && pendingTimers == {inactivityTimer}
    }

    /** The inactivity timer is left alone: no timer armed, cleared or handed out. */
    twostate predicate TimerKept()
      reads this
    {
      pendingTimers == old(pendingTimers) && inactivityTimer == old(inactivityTimer) && nextTimerId == old(nextTimerId)
    }

    /** The page as loaded at `href`, with the name kept in local storage ("" when none). */
    constructor (href: string, storedName: string)
      ensures Valid()
      ensures !initiator && room.None? && connection.None?
      ensures inactivityTimer == 0 && pendingTimers == {} && nextTimerId == 1
      ensures audioInput.None? && videoInput.None? && stoppedTracks == []
      ensures selfName == storedName && remoteName == "" && remoteStream.None?
      ensures location == href && sent == [] && calls == []
    {
      initiator := false;
      room := None;
      connection := None;
      inactivityTimer := 0;
      pendingTimers := {};
      nextTimerId := 1;
      audioInput := None;
      videoInput := None;
      stoppedTracks := [];
      selfName := storedName;
      remoteName := "";
      remoteStream := None;
      location := href;
      sent := [];
      calls := [];
    }

    // --- inactivity timer ---

    method CancelTimer()
      requires Valid()
      modifies this`pendingTimers
      ensures Valid() && pendingTimers == {}
    {
      if inactivityTimer != 0 {
        pendingTimers := pendingTimers - {inactivityTimer};
      }
    }

    method StartTimer()
      requires Valid()
      modifies this`pendingTimers, this`inactivityTimer, this`nextTimerId
      ensures Valid() && Restarted()
      ensures inactivityTimer == old(nextTimerId) && nextTimerId == old(nextTimerId) + 1
    {
      CancelTimer();
      inactivityTimer := nextTimerId;
      pendingTimers := pendingTimers + {inactivityTimer};
      nextTimerId := nextTimerId + 1;
    }

    /** The 50-minute timer `id` fires (it only shows the ping prompt). */
    method TimerFired(id: nat)
      requires Valid()
      modifies this`pendingTimers
      ensures Valid() && pendingTimers == old(pendingTimers) - {id}
    {
      pendingTimers := pendingTimers - {id};
    }

    // --- helpers ---

    method UpdateUrl()
      modifies this`location
      ensures location == BuildUrl(old(location), room)
    {
      location := BuildUrl(location, room);
    }

    method SendUpdateMessage()
      requires Valid()
      modifies this`sent, this`pendingTimers, this`inactivityTimer, this`nextTimerId
      ensures Valid() && Restarted()
      ensures sent == old(sent) + [Send(StatusPayload(audioInput, videoInput, selfName))]
    {
      sent := sent + [Send(StatusPayload(audioInput, videoInput, selfName))];
      StartTimer();
    }

    /** `connection.addTrack` for each of `tracks`, in order. */
    method AddTracks(tracks: seq<MediaTrack>)
      requires connection.Some?
      modifies this`connection
      ensures connection == Some(old(connection.value).(senders := old(connection.value.senders) + tracks))
    {
      ghost var before := connection.value;
      assert before.senders + tracks[..0] == before.senders;
      for i := 0 to |tracks|
        invariant connection == Some(before.(senders := before.senders + tracks[..i]))
      {
        assert before.senders + tracks[..i + 1] == before.senders + tracks[..i] + [tracks[i]];
        connection := Some(connection.value.(senders := connection.value.senders + [tracks[i]]));
      }
      assert tracks[..|tracks|] == tracks;
    }

    /** `track.stop()` for each of `tracks`, in order. */
    method StopTracks(tracks: seq<MediaTrack>)
      modifies this`stoppedTracks
      ensures stoppedTracks == old(stoppedTracks) + tracks
    {
      for i := 0 to |tracks|
        invariant stoppedTracks == old(stoppedTracks) + tracks[..i]
      {
        assert tracks[..i + 1] == tracks[..i] + [tracks[i]];
        stoppedTracks := stoppedTracks + [tracks[i]];
      }
      assert tracks[..|tracks|] == tracks;
    }

    // --- entering a room ---

    /** `setupCall`: a fresh remote stream and a camera request chained to the microphone. */
    method SetupCall()
      modifies this`remoteStream, this`calls
      ensures remoteStream == Some([]) && calls == old(calls) + [GetCamera(true)]
    {
      remoteStream := Some([]);
      calls := calls + [GetCamera(true)];
    }

    /** The create button: set up the call, become the initiator, ask for a room id. */
    method CreateRoomButton()
      requires Valid()
      modifies this`remoteStream, this`calls, this`initiator
      ensures Valid() && initiator && remoteStream == Some([])
      ensures calls == old(calls) + [GetCamera(true), FetchRoomId]
    {
      SetupCall();
      initiator := true;
      calls := calls + [FetchRoomId];
    }

    /** The `/roomId` response: create the room, restart the timer, put the code in the URL. */
    method RoomIdReceived(id: RoomName)
      requires Valid()
      modifies this`room, this`sent, this`pendingTimers, this`inactivityTimer, this`nextTimerId, this`location
      ensures Valid() && Restarted()
      ensures room == Some(id) && sent == old(sent) + [CreateRoom(id)]
      ensures location == BuildUrl(old(location), Some(id))
    {
      room := Some(id);
      sent := sent + [CreateRoom(id)];
      StartTimer();
      UpdateUrl();
    }

    /** The join button, and a `code` in the URL at page load: join when the code is non-empty. */
    method JoinRoomButton(code: string)
      requires Valid()
      modifies this`room, this`initiator, this`sent, this`pendingTimers, this`inactivityTimer,
        this`nextTimerId, this`location
      ensures Valid()
      ensures |code| == 0 ==> unchanged(this)
      ensures |code| > 0 ==> room == Some(code) && !initiator && sent == old(sent) + [JoinRoom(code)]
      ensures |code| > 0 ==> Restarted() && location == BuildUrl(old(location), Some(code))
    {
      if |code| > 0 {
        room := Some(code);
        initiator := false;
        sent := sent + [JoinRoom(code)];
        StartTimer();
        UpdateUrl();
      }
    }

    // --- server events ---

    /**
     * `ready`: a joiner sets up its call; a new connection gets the audio
     * tracks and the first video track; the initiator asks for an offer; the
     * timer restarts and the status is sent. `threw` when a video stream has
     * no track (addTrack of `undefined`), which skips everything after it.
     */
    method OnReady() returns (threw: bool)
      requires Valid()
      modifies this`remoteStream, this`calls, this`connection, this`sent,
        this`pendingTimers, this`inactivityTimer, this`nextTimerId
      ensures Valid()
      ensures remoteStream == if old(initiator) then old(remoteStream) else Some([])
      ensures threw <==> videoInput.Some? && |videoInput.value| == 0
      ensures connection.Some? && connection.value.remoteDescription.None? && connection.value.localDescription.None?
      ensures connection.value.senders ==
        Tracks(audioInput) + (if videoInput.Some? && !threw then [videoInput.value[0]] else [])
      ensures calls == old(calls) + (if initiator then [] else [GetCamera(true)])
                                  + (if initiator && !threw then [CreateOffer] else [])
      ensures threw ==> sent == old(sent) && TimerKept()
      ensures !threw ==> Restarted() && sent == old(sent) + [Send(StatusPayload(audioInput, videoInput, selfName))]
    {
      threw := false;
      if !initiator {
        SetupCall();
      }
      connection := Some(NEW_PEER);
      if audioInput.Some? {
        AddTracks(audioInput.value);
      }
      if videoInput.Some? {
        if |videoInput.value| == 0 {
          threw := true;
          return;
        }
        AddTracks([videoInput.value[0]]);
      }
      if initiator {
        HandleNegotiation();
      }
      StartTimer();
      SendUpdateMessage();
    }

    /**
     * `message`: offers and answers go to setRemoteDescription, candidates to
     * addIceCandidate, status updates to UpdateRemoteTracks; anything else is
     * ignored. The timer restarts unless the handler threw, which it does on
     * an offer, answer or candidate before any connection exists.
     */
    method OnMessage(m: Envelope) returns (threw: bool)
      requires Valid()
      modifies this`calls, this`remoteName, this`remoteStream, this`pendingTimers,
        this`inactivityTimer, this`nextTimerId
      ensures Valid()
      ensures threw <==> ((m.Offer? || m.Answer? || m.Candidate?) && connection.None?)
                         || (m.StatusUpdate? && old(remoteStream).None? && !(m.audio && m.video))
      ensures calls == old(calls) + (if threw then [] else if m.Offer? || m.Answer? then [SetRemote(m)]
                                     else if m.Candidate? then [AddCandidate(m.candidate)] else [])
      ensures remoteName == if m.StatusUpdate? then m.name else old(remoteName)
      ensures m.StatusUpdate? && old(remoteStream).Some? ==>
        remoteStream == Some(AfterStatus(old(remoteStream).value, m.audio, m.video))
      ensures !m.StatusUpdate? || old(remoteStream).None? ==> remoteStream == old(remoteStream)
      ensures !threw ==> Restarted()
      ensures threw ==> TimerKept()
    {
      threw := false;
      match m {
        case Offer(_) =>
          if connection.None? {
            threw := true;
            return;
          }
          calls := calls + [SetRemote(m)];
        case Answer(_) =>
          if connection.None? {
            threw := true;
            return;
          }
          calls := calls + [SetRemote(m)];
        case Candidate(c) =>
          if connection.None? {
            threw := true;
            return;
          }
          calls := calls + [AddCandidate(c)];
        case StatusUpdate(audio, video, name) =>
          threw := UpdateRemoteTracks(name, audio, video);
          if threw {
            return;
          }
        case Ping =>
        case Other(_) =>
      }
      StartTimer();
    }

    /**
     * `updateRemoteTracks`: record the remote name, drop the remote audio
     * (video) tracks when the update reports none. Reading the remote stream
     * before `setupCall` created it throws.
     */
    method UpdateRemoteTracks(name: string, audio: bool, video: bool) returns (threw: bool)
      requires Valid()
      modifies this`remoteName, this`remoteStream
      ensures Valid() && remoteName == name
      ensures threw <==> old(remoteStream).None? && !(audio && video)
      ensures old(remoteStream).Some? ==> remoteStream == Some(AfterStatus(old(remoteStream).value, audio, video))
      ensures old(remoteStream).None? ==> remoteStream.None?
    {
      threw := false;
      remoteName := name;
      if !audio {
        if remoteStream.None? {
          threw := true;
          return;
        }
        var heard := StripKind(remoteStream.value, Audio);
        remoteStream := Some(heard);
      }
      if !video {
        if remoteStream.None? {
          threw := true;
          return;
        }
        var seen := StripKind(remoteStream.value, Video);
        remoteStream := Some(seen);
      }
    }

    // --- WebRTC callbacks ---

    /** `handleNegotiation`, also the connection's `onnegotiationneeded` on either side. */
    method HandleNegotiation()
      modifies this`calls
      ensures calls == old(calls) + (if connection.Some? then [CreateOffer] else [])
    {
      if connection.Some? {
        calls := calls + [CreateOffer];
      }
    }

    /** createOffer or createAnswer settled: on success the description goes to setLocalAndSendMessage. */
    method DescriptionCreated(created: Option<Envelope>)
      modifies this`calls
      ensures calls == old(calls) + (if created.Some? && connection.Some? then [SetLocal(created.value)] else [])
    {
      if created.Some? {
        SetLocalAndSendMessage(created.value);
      }
    }

    /** `setLocalAndSendMessage`: apply the description locally; it is sent once that succeeds. */
    method SetLocalAndSendMessage(desc: Envelope)
      modifies this`calls
      ensures calls == old(calls) + (if connection.Some? then [SetLocal(desc)] else [])
    {
      if connection.Some? {
        calls := calls + [SetLocal(desc)];
      }
    }

    /** setLocalDescription(desc) settled: on success the description is sent and the timer restarts. */
    method LocalDescriptionSet(desc: Envelope, ok: bool)
      requires Valid()
      modifies this`connection, this`sent, this`pendingTimers, this`inactivityTimer, this`nextTimerId
      ensures Valid()
      ensures !ok ==> unchanged(this)
      ensures ok ==> sent == old(sent) + [Send(desc)] && Restarted()
      ensures ok ==> connection == if old(connection).Some?
                                   then Some(old(connection).value.(localDescription := Some(desc)))
                                   else None
    {
      if ok {
        if connection.Some? {
          connection := Some(connection.value.(localDescription := Some(desc)));
        }
        sent := sent + [Send(desc)];
        StartTimer();
      }
    }

    /**
     * setRemoteDescription(desc) settled. On success, for an offer the page
     * asks for an answer; for an answer it sends its status. On failure
     * nothing happens.
     */
    method RemoteDescriptionSet(desc: Envelope, ok: bool)
      requires Valid()
      modifies this`connection, this`calls, this`sent, this`pendingTimers, this`inactivityTimer, this`nextTimerId
      ensures Valid()
      ensures !ok ==> unchanged(this)
      ensures ok ==> connection == if old(connection).Some?
                                   then Some(old(connection).value.(remoteDescription := Some(desc)))
                                   else None
      ensures calls == old(calls) + (if ok && desc.Offer? && connection.Some? then [CreateAnswer] else [])
      ensures sent == old(sent) + (if ok && desc.Answer? then [Send(StatusPayload(audioInput, videoInput, selfName))] else [])
      ensures ok && desc.Answer? ==> Restarted()
      ensures !(ok && desc.Answer?) ==> TimerKept()
    {
      if ok {
        if connection.Some? {
          connection := Some(connection.value.(remoteDescription := Some(desc)));
        }
        match desc
        case Offer(_) =>
          if connection.Some? {
            calls := calls + [CreateAnswer];
          }
        case Answer(_) =>
          SendUpdateMessage();
        case _ =>
      }
    }

    /** `ontrack`: a new video track replaces the remote video tracks; any new track joins the remote stream. */
    method OnTrack(track: MediaTrack) returns (threw: bool)
      requires Valid()
      modifies this`remoteStream
      ensures Valid()
      ensures threw <==> old(remoteStream).None?
      ensures !threw ==>
        var kept := if track.kind == Video then WithoutKind(old(remoteStream).value, Video) else old(remoteStream).value;
        remoteStream == Some(if track in kept then kept else kept + [track])
    {
      threw := false;
      if remoteStream.None? {
        threw := true;
        return;
      }
      var kept := remoteStream.value;
      if track.kind == Video {
        kept := StripKind(kept, Video);
      }
      remoteStream := Some(if track in kept then kept else kept + [track]);
    }

    /** `onicecandidate`: a local candidate is sent to the other page; the end-of-candidates event is not. */
    method OnIceCandidate(candidate: Option<IceCandidate>)
      requires Valid()
      modifies this`sent, this`pendingTimers, this`inactivityTimer, this`nextTimerId
      ensures Valid()
      ensures candidate.None? ==> unchanged(this)
      ensures candidate.Some? ==> sent == old(sent) + [Send(Candidate(candidate.value))] && Restarted()
    {
      if candidate.Some? {
        sent := sent + [Send(Candidate(candidate.value))];
        StartTimer();
      }
    }

    // --- camera and microphone ---

    method SetupCamera(thenMicrophone: bool)
      modifies this`calls
      ensures calls == old(calls) + [GetCamera(thenMicrophone)]
    {
      calls := calls + [GetCamera(thenMicrophone)];
    }

    method SetupMicrophone()
      modifies this`calls
      ensures calls == old(calls) + [GetMicrophone]
    {
      calls := calls + [GetMicrophone];
    }

    /**
     * The camera request settled with `stream` (None: refused or failed): keep
     * it, give its first track to the connection, send the status when
     * connected, and go on to the microphone when chained.
     */
    method CameraSettled(stream: Option<Stream>, thenMicrophone: bool)
      requires Valid()
      modifies this`videoInput, this`connection, this`sent, this`pendingTimers, this`inactivityTimer,
        this`nextTimerId, this`calls
      ensures Valid() && videoInput == stream
      ensures connection.Some? <==> old(connection).Some?
      ensures connection.Some? ==> connection == Some(old(connection).value.(senders :=
        old(connection).value.senders + (if stream.Some? && |stream.value| > 0 then [stream.value[0]] else [])))
      ensures sent == old(sent) + (if connection.Some? then [Send(StatusPayload(audioInput, stream, selfName))] else [])
      ensures connection.Some? ==> Restarted()
      ensures connection.None? ==> TimerKept()
      ensures calls == old(calls) + (if thenMicrophone then [GetMicrophone] else [])
    {
      videoInput := stream;
      if stream.Some? && |stream.value| > 0 && connection.Some? {
        AddTracks([stream.value[0]]);
      } else if connection.Some? {
        assert connection.value.senders + [] == connection.value.senders;
      }
      if connection.Some? {
        SendUpdateMessage();
      }
      if thenMicrophone {
        SetupMicrophone();
      }
    }

    /**
     * The microphone request settled with `stream`: keep it, give all its
     * tracks to the connection and send the status when connected.
     */
    method MicrophoneSettled(stream: Option<Stream>)
      requires Valid()
      modifies this`audioInput, this`connection, this`sent, this`pendingTimers, this`inactivityTimer, this`nextTimerId
      ensures Valid() && audioInput == stream
      ensures connection.Some? <==> old(connection).Some?
      ensures connection.Some? ==> connection == Some(old(connection).value.(senders :=
        old(connection).value.senders + Tracks(stream)))
      ensures sent == old(sent) + (if connection.Some? then [Send(StatusPayload(stream, videoInput, selfName))] else [])
      ensures connection.Some? ==> Restarted()
      ensures connection.None? ==> TimerKept()
    {
      audioInput := stream;
      if stream.Some? && connection.Some? {
        AddTracks(stream.value);
      } else if connection.Some? {
        assert connection.value.senders + [] == connection.value.senders;
      }
      if connection.Some? {
        SendUpdateMessage();
      }
    }

    /** `stopCamera`: stop every camera track, drop the stream, tell the other page. */
    method StopCamera()
      requires Valid()
      modifies this`videoInput, this`stoppedTracks, this`sent, this`pendingTimers, this`inactivityTimer, this`nextTimerId
      ensures Valid() && Restarted() && videoInput.None?
      ensures stoppedTracks == old(stoppedTracks) + Tracks(old(videoInput))
      ensures sent == old(sent) + [Send(StatusPayload(audioInput, None, selfName))]
    {
      if videoInput.Some? {
        StopTracks(videoInput.value);
        videoInput := None;
      }
      SendUpdateMessage();
    }

    /** `stopMicrophone`: stop every microphone track, drop the stream, tell the other page. */
    method StopMicrophone()
      requires Valid()
      modifies this`audioInput, this`stoppedTracks, this`sent, this`pendingTimers, this`inactivityTimer, this`nextTimerId
      ensures Valid() && Restarted() && audioInput.None?
      ensures stoppedTracks == old(stoppedTracks) + Tracks(old(audioInput))
      ensures sent == old(sent) + [Send(StatusPayload(None, videoInput, selfName))]
    {
      if audioInput.Some? {
        StopTracks(audioInput.value);
        audioInput := None;
      }
      SendUpdateMessage();
    }

    /** The camera button: stop a running camera, otherwise request one. */
    method CameraButton()
      requires Valid()
      modifies this`videoInput, this`stoppedTracks, this`sent, this`pendingTimers, this`inactivityTimer,
        this`nextTimerId, this`calls
      ensures Valid() && videoInput.None?
      ensures old(videoInput).Some? ==> stoppedTracks == old(stoppedTracks) + old(videoInput).value && Restarted()
      ensures old(videoInput).Some? ==> sent == old(sent) + [Send(StatusPayload(audioInput, None, selfName))]
      ensures old(videoInput).Some? ==> calls == old(calls)
      ensures old(videoInput).None? ==> calls == old(calls) + [GetCamera(false)]
      ensures old(videoInput).None? ==> unchanged(this`sent, this`stoppedTracks) && TimerKept()
    {
      if videoInput.Some? {
        StopCamera();
      } else {
        SetupCamera(false);
      }
    }

    /** The microphone button: stop a running microphone, otherwise request one. */
    method MicrophoneButton()
      requires Valid()
      modifies this`audioInput, this`stoppedTracks, this`sent, this`pendingTimers, this`inactivityTimer,
        this`nextTimerId, this`calls
      ensures Valid() && audioInput.None?
      ensures old(audioInput).Some? ==> stoppedTracks == old(stoppedTracks) + old(audioInput).value && Restarted()
      ensures old(audioInput).Some? ==> sent == old(sent) + [Send(StatusPayload(None, videoInput, selfName))]
      ensures old(audioInput).Some? ==> calls == old(calls)
      ensures old(audioInput).None? ==> calls == old(calls) + [GetMicrophone]
      ensures old(audioInput).None? ==> unchanged(this`sent, this`stoppedTracks) && TimerKept()
    {
      if audioInput.Some? {
        StopMicrophone();
      } else {
        SetupMicrophone();
      }
    }

    // --- other page events ---

    /** The ping prompt: send a `ping` through the server and restart the timer. */
    method PingButton()
      requires Valid()
      modifies this`sent, this`pendingTimers, this`inactivityTimer, this`nextTimerId
      ensures Valid() && Restarted() && sent == old(sent) + [Send(Ping)]
    {
      sent := sent + [Send(Ping)];
      StartTimer();
    }

    /** The name field loses focus: keep the name and, when connected, tell the other page. */
    method EditName(name: string)
      requires Valid()
      modifies this`selfName, this`sent, this`pendingTimers, this`inactivityTimer, this`nextTimerId
      ensures Valid() && selfName == name
      ensures sent == old(sent) + (if connection.Some? then [Send(StatusPayload(audioInput, videoInput, name))] else [])
      ensures connection.Some? ==> Restarted()
      ensures connection.None? ==> TimerKept()
    {
      selfName := name;
      if connection.Some? {
        SendUpdateMessage();
      }
    }

    /** Closing the tab tells the server the call is over. */
    method BeforeUnload()
      modifies this`sent
      ensures sent == old(sent) + [Leave]
    {
      sent := sent + [Leave];
    }

    // --- leaving a call ---

    /**
     * `showHomeScreen` as the page runs it: the timer is cancelled before the
     * camera and microphone are stopped, and stopping each of them sends a
     * status update, which arms the timer again. A fresh timer is left pending.
     */
    method ShowHomeScreenAsWritten()
      requires Valid()
      modifies this`remoteName, this`room, this`pendingTimers, this`location, this`videoInput, this`audioInput,
        this`stoppedTracks, this`sent, this`inactivityTimer, this`nextTimerId
      ensures Valid() && remoteName == "" && room.None?
      ensures audioInput.None? && videoInput.None?
      ensures location == BuildUrl(old(location), None)
      ensures stoppedTracks == old(stoppedTracks) + Tracks(old(videoInput)) + Tracks(old(audioInput))
      ensures sent == old(sent) + [Send(StatusPayload(old(audioInput), None, selfName)),
                                   Send(StatusPayload(None, None, selfName))]
      ensures Restarted() && pendingTimers != {}
    {
      remoteName := "";
      room := None;
      CancelTimer();
      UpdateUrl();
      StopCamera();
      StopMicrophone();
    }

    /**
     * `showHomeScreen` with the cancellation it intends: the timer is
     * cancelled after the camera and microphone have been stopped, so none
     * is left pending.
     */
    method ShowHomeScreen()
      requires Valid()
      modifies this`remoteName, this`room, this`pendingTimers, this`location, this`videoInput, this`audioInput,
        this`stoppedTracks, this`sent, this`inactivityTimer, this`nextTimerId
      ensures Valid() && remoteName == "" && room.None?
      ensures audioInput.None? && videoInput.None?
      ensures location == BuildUrl(old(location), None)
      ensures stoppedTracks == old(stoppedTracks) + Tracks(old(videoInput)) + Tracks(old(audioInput))
      ensures sent == old(sent) + [Send(StatusPayload(old(audioInput), None, selfName)),
                                   Send(StatusPayload(None, None, selfName))]
      ensures pendingTimers == {}
    {
      remoteName := "";
      room := None;
      UpdateUrl();
      StopCamera();
      StopMicrophone();
      CancelTimer();
    }

    /**
     * `endCall` as the page runs it, on the end button, the server's `end`
     * and the socket's `disconnect`: tell the server, close the connection,
     * and go home through ShowHomeScreenAsWritten, which leaves a fresh
     * timer pending.
     */
    method EndCallAsWritten()
      requires Valid()
      modifies this`connection, this`remoteName, this`room, this`pendingTimers, this`location, this`videoInput,
        this`audioInput, this`stoppedTracks, this`sent, this`inactivityTimer, this`nextTimerId
      ensures Valid() && connection.None? && remoteName == "" && room.None?
      ensures audioInput.None? && videoInput.None?
      ensures location == BuildUrl(old(location), None)
      ensures stoppedTracks == old(stoppedTracks) + Tracks(old(videoInput)) + Tracks(old(audioInput))
      ensures sent == old(sent) + [Leave, Send(StatusPayload(old(audioInput), None, selfName)),
                                   Send(StatusPayload(None, None, selfName))]
      ensures Restarted() && pendingTimers != {}
    {
      sent := sent + [Leave];
      if connection.Some? {
        connection := None;
      }
      ShowHomeScreenAsWritten();
    }

    /**
     * `endCall` with the corrected showHomeScreen: the same, except that no
     * timer is left pending.
     */
    method EndCall()
      requires Valid()
      modifies this`connection, this`remoteName, this`room, this`pendingTimers, this`location, this`videoInput,
        this`audioInput, this`stoppedTracks, this`sent, this`inactivityTimer, this`nextTimerId
      ensures Valid() && connection.None? && remoteName == "" && room.None?
      ensures audioInput.None? && videoInput.None? && pendingTimers == {}
      ensures location == BuildUrl(old(location), None)
      ensures stoppedTracks == old(stoppedTracks) + Tracks(old(videoInput)) + Tracks(old(audioInput))
      ensures sent == old(sent) + [Leave, Send(StatusPayload(old(audioInput), None, selfName)),
                                   Send(StatusPayload(None, None, selfName))]
    {
      sent := sent + [Leave];
      if connection.Some? {
        connection := None;
      }
      ShowHomeScreen();
    }
  }
}
