# zing-video-chat: rendezvous server and signalling page

A Dafny model of the two sequential, event-driven controllers of a two-person video chat. They share one protocol.

- **The rendezvous server (`index.js`).**
  - It hands out random ten-character room ids.
  - It keeps a table from room id to the connections in that room, plus each connection's `socketRoom`.
  - It answers `create` and `join` with `ready`, `full` or `empty`.
  - It relays every `message` to the other member of the sender's room.
  - It tells the other member `end` when a connection ends the call or its transport closes.
- **The signalling page (`public/index.js`).** Its module-level state is:
  - the initiator flag, the room, the WebRTC connection and the inactivity timer;
  - the local camera and microphone streams, both names, and the remote stream.

  Its handlers react to the server's events, to WebRTC and `getUserMedia` callbacks, and to the buttons.

## Files

- **`wrappers.dfy`:** `Option`.
- **`protocol.dfy`:** the events and message envelopes both sides exchange.
- **`room_ids.dfy`:** the `/roomId` generator.
  - `Math.random()` is replaced by a supplied stream of draws in [0, 1), taken ten per candidate.
  - The endless retry loop stops with `None` when the stream runs out.
  - The room lookup is a parameter, `found`.
- **`rendezvous.dfy`:** the server.
  - Each handler is a function `XStep` from the table to the new table plus the emits it makes. Those functions carry the promises of the handlers.
  - `WellFormed` is the invariant they keep: no empty room is tracked, no room holds more than two connections, and a `socketRoom` names a room its connection is in.
  - `Replay` runs any sequence of requests, and `RunKeepsCapacity` proves that no room ever exceeds two members.
  - The class `Server` holds the same state in fields. Its handler methods are proved to perform exactly those steps.
  - An emit is a `Delivery`: the set of connections it reaches and the event.
- **`signalling.dfy`:** the page, as the class `Client`.
  - Every asynchronous browser call the page makes is appended to `calls`: `getUserMedia`, `createOffer`, `createAnswer`, `setRemoteDescription`, `setLocalDescription`, `addIceCandidate` and the `$.get` of a room id.
  - The callback that runs when such a call settles is its own method, taking the outcome as a parameter.
  - Socket emits are appended to `sent`.
  - Dereferencing an absent `connection` or `remoteStream` throws a TypeError in the page and skips the rest of the handler. The handlers that can do this return `threw`.
  - Timers are ids handed out by `nextTimerId`. `pendingTimers` holds those armed and neither cleared nor fired.

## Where the code and its design description differ (the model follows the code)

- **Renegotiation.** It is not reserved to the initiator. `onnegotiationneeded` is wired to `handleNegotiation` on both sides (public/index.js:159), so `HandleNegotiation` asks for an offer on any page with a connection.
- **Early messages.** Candidates that arrive before the connection exists are neither queued nor dropped gracefully. An offer, answer or candidate with no connection throws, and the timer is not restarted (`Client.OnMessage`).
- **A status update before the call is set up.** When it reports a missing track, it throws, because the remote stream does not exist yet (`Client.UpdateRemoteTracks`).
- **`ping`.** It has no handler of its own. Like any other type the page does not recognise, it only restarts the timer.
- **Media on `ready`.** The joiner does not wait for its camera and microphone. `ready` starts `getUserMedia` and creates the connection at once, and the tracks are added when each request settles (`Client.OnReady`, `Client.CameraSettled`, `Client.MicrophoneSettled`).
- **Pairing.** `ready` goes to everyone in the room. A connection that joins the one-member room it is already in gets `ready` alone (`Rendezvous.JoinStep`).
- **Leaving.** The `close` handler does not remove the connection from its room. The adapter does that when the connection goes away (`Rendezvous.DisconnectStep`). The `close` event comes first, while `socketRoom` is still set. A replay must put `CloseRequest(c)` before `Disconnection(c)`: the other order loses the `end` that the listener would still send from its closure.
- **Id generation.** Uniqueness is not enforced (see Findings), and the retry loop is unbounded. `Server.RoomIdRequest` models the handler as written: it returns the first candidate whatever rooms are active. `Server.FreshRoomIdRequest` is the corrected handler.

## Model

| member | source | states |
|---|---|---|
| `RoomIds.CharSetIsAlphanumeric` | index.js:33 | the alphabet has 62 characters and a character is in it exactly when it is in `a-z`, `A-Z` or `0-9` |
| `RoomIds.CharSetIsSourceLiteral` | index.js:33 | the alphabet is the literal of the source, lower case, then upper case, then digits |
| `RoomIds.CharIndex` | index.js:38 | `floor(r * 62)` for a draw `r` in [0, 1) is a valid index into the alphabet |
| `RoomIds.Spell` | index.js:36-39 | the inner loop's string has one character per draw, character i being the alphabet at draw i's index |
| `RoomIds.Candidate` | index.js:34-39 | every candidate id has length 10 and only alphanumeric characters |
| `RoomIds.GenerateId` | index.js:35-44 | an id returned is a room id the lookup did not find, the first candidate that the lookup did not find; `None` only when the lookup found every candidate |
| `RoomIds.BracketLookupMissesRoomIds` | index.js:40 | the bracket lookup on the room `Map` finds no well-formed room id, whatever rooms are active |
| `RoomIds.GenerateIdAsWritten` | index.js:32-45 | the generator as written returns its first candidate whatever rooms are active |
| `RoomIds.AsWrittenAcceptsActiveRoom` | index.js:40 | ten draws of 0.0 spell `aaaaaaaaaa`, which the as-written check accepts while that room is active |
| `RoomIds.BracketLookup` | index.js:40 | the as-written lookup `rooms[id] === undefined` finds only property names of the `Map` object, never a well-formed room id, and does not depend on the active rooms |
| `RoomIds.GenerateFreshId` | index.js:32-45 | the corrected generator returns only a room id that is not an active room |
| `Rendezvous.Peers` | index.js:60 | the audience of `socket.to(socketRoom)` is exactly the other members of the caller's `socketRoom`, never the caller, and nobody when `socketRoom` is unset |
| `Rendezvous.Enter` | index.js:70 | `socket.join(room)`: the caller is a member afterwards, the room is created when absent, joining twice changes nothing, and every other room is untouched |
| `Rendezvous.Exit` | index.js:105 | `socket.leave(room)`: the caller is no longer a member, the room is deleted exactly when it becomes empty, and every other room is untouched |
| `Rendezvous.OthersInRoom` | index.js:60 | in a well-formed table a connection has at most one other connection in its room |
| `Rendezvous.CreateStep` | index.js:64-78 | on an empty room the caller becomes its sole member and its `socketRoom`, with no emit; otherwise only the caller gets `full` and nothing changes; well-formedness is kept |
| `Rendezvous.JoinStep` | index.js:81-100 | 0 members: only the caller gets `empty`, no room is created; 1 member: the caller is added, `socketRoom` set, `ready` to every member (two of them for a newcomer); 2 or more: only the caller gets `full`, nothing changes; well-formedness is kept |
| `Rendezvous.RelayStep` | index.js:59-61 | the message, unmodified, reaches exactly the members of the sender's `socketRoom` other than the sender, and nothing changes |
| `Rendezvous.RelayReachesAtMostOne` | index.js:59-61 | in a well-formed table a relayed message reaches at most one connection |
| `Rendezvous.EndStep` | index.js:103-108 | `end` goes to the rest of the caller's room, the caller leaves that room and only that room, and its `socketRoom` is cleared; well-formedness is kept |
| `Rendezvous.CloseStep` | index.js:111-117 | `end` goes to the rest of the room exactly when `socketRoom` is a set non-empty string; the table is unchanged |
| `Rendezvous.DisconnectStep` | index.js:111 | a closed connection leaves every room, emptied rooms disappear, its `socketRoom` goes, and nothing is emitted; well-formedness is kept; it follows the `close` step of the same connection |
| `Rendezvous.RunKeepsCapacity` | index.js:64-100 | from a well-formed table, after any sequence of requests the table is well-formed and no room holds more than two connections |
| `Rendezvous.OnlyFirstJoinerSucceeds` | index.js:89-99 | of two newcomers joining a waiting room in turn, the first gets in and `ready` goes to it and the member, the second only gets `full` |
| `Rendezvous.PairingScenario` | index.js:64-100 | x creates, y joins: `ready` reaches exactly x and y; a third connection gets `full` on join and on create and changes nothing |
| `Rendezvous.JoinUnknownRoomScenario` | index.js:85-88 | joining a room nobody created yields `empty` to the caller alone and leaves the table empty |
| `Rendezvous.AbruptDisconnectScenario` | index.js:103-117 | when x's transport closes, y receives `end` once; after the adapter drops x, y's own `end` reaches nobody, deletes the room, and the id can be created afresh |
| `Rendezvous.Server.constructor` | index.js:55-56 | a server starts with no rooms, no `socketRoom` and no emits |
| `Rendezvous.Server.RoomIdRequest` | index.js:32-45 | `/roomId` as written answers with the first candidate of the draws, whatever rooms are active, and with nothing only when the draws run out |
| `Rendezvous.Server.FreshRoomIdRequest` | index.js:32-45 | `/roomId` with the corrected lookup answers only with a room id that is not an active room, and with nothing only when every candidate is active |
| `Rendezvous.Server.OnCreate` | index.js:64-78 | the `create` handler performs `CreateStep` on the server's fields and keeps the invariant |
| `Rendezvous.Server.OnJoin` | index.js:81-100 | the `join` handler performs `JoinStep` on the server's fields and keeps the invariant |
| `Rendezvous.Server.OnMessage` | index.js:59-61 | the relay appends the `RelayStep` emit and changes no room |
| `Rendezvous.Server.OnEnd` | index.js:103-108 | the `end` handler performs `EndStep` on the server's fields and keeps the invariant |
| `Rendezvous.Server.OnClose` | index.js:111-117 | the `close` handler appends the `CloseStep` emits and changes no room |
| `Rendezvous.Server.Disconnect` | index.js:111 | dropping a closed connection performs `DisconnectStep` and emits nothing |
| `Signalling.BeforeQuery` | public/index.js:337 | the result is the longest prefix of the address without `?`: a prefix, free of `?`, and followed by `?` when shorter |
| `Signalling.BuildUrl` | public/index.js:336-342 | the new address starts with the page address and is longer exactly when the room is a non-empty string |
| `Signalling.SplitAtFirstQuery` | public/index.js:337 | splitting `base?rest` with `?`-free `base` gives back `base` and `rest` |
| `Signalling.UrlKeepsPage` | public/index.js:336-342 | the address built for any room still names the same page |
| `Signalling.UrlCarriesRoom` | public/index.js:338-340 | the query of the address built for a non-empty room is exactly `code=` and the room |
| `Signalling.UrlRebuild` | public/index.js:336-342 | rebuilding the address is idempotent, and building it with no room removes the code |
| `Signalling.StatusPayload` | public/index.js:271-279 | a status update says audio exactly when a microphone stream is held, video exactly when a camera stream is held, and carries the page's own name |
| `Signalling.WithoutKind` | public/index.js:237-252 | after removing the tracks of one kind, a track remains exactly when it was there and is of the other kind |
| `Signalling.AfterStatus` | public/index.js:232-253 | after a status update a remote track remains exactly when it was there and its kind was reported present; no track is added, and nothing changes when both are reported |
| `Signalling.StatusRoundTrip` | public/index.js:226-279 | a status update applied by the other page never adds remote tracks, leaves no audio (video) track when the sender has no microphone (camera), and changes nothing when both are present |
| `Signalling.StripKind` | public/index.js:237-239 | the `forEach(removeTrack)` loop leaves exactly `WithoutKind` of the stream |
| `Signalling.Client.constructor` | public/index.js:8-22 | the page starts with no room, connection, timer, streams or remote stream, and the stored name |
| `Signalling.Client.CancelTimer` | public/index.js:495-500 | no timer is pending afterwards |
| `Signalling.Client.StartTimer` | public/index.js:503-509 | the pending timer is cancelled and a fresh one armed: exactly one timer is pending, a new one |
| `Signalling.Client.TimerFired` | public/index.js:506-508 | a fired timer is no longer pending |
| `Signalling.Client.UpdateUrl` | public/index.js:336-342 | the address becomes `BuildUrl` of the old address and the room |
| `Signalling.Client.SendUpdateMessage` | public/index.js:271-279 | the page's status payload is emitted and the timer restarted |
| `Signalling.Client.AddTracks` | public/index.js:65-67 | the tracks are added to the connection in order |
| `Signalling.Client.StopTracks` | public/index.js:399-401 | every track of the stream is stopped, in order |
| `Signalling.Client.SetupCall` | public/index.js:282-293 | a fresh empty remote stream, and a camera request chained to the microphone |
| `Signalling.Client.CreateRoomButton` | public/index.js:530-533 | the call is set up, the page becomes the initiator and asks the server for a room id |
| `Signalling.Client.RoomIdReceived` | public/index.js:28-36 | the room is the id received, `create` is emitted, the timer restarts and the URL carries the code |
| `Signalling.Client.JoinRoomButton` | public/index.js:535-541 | an empty code does nothing; otherwise the page is not the initiator, emits `join` for the code, restarts the timer and puts the code in the URL |
| `Signalling.Client.OnReady` | public/index.js:51-80 | a connection exists afterwards, holding all audio tracks and the first video track; only a joiner sets up its call, and only the initiator asks for an offer; unless a video stream has no track, the timer restarts and the status is sent |
| `Signalling.Client.OnMessage` | public/index.js:83-116 | an offer or answer goes to `setRemoteDescription`, a candidate to `addIceCandidate`, a status update to the remote tracks, other types change nothing; it throws exactly when the connection or remote stream it needs is missing, and otherwise the timer restarts |
| `Signalling.Client.UpdateRemoteTracks` | public/index.js:226-268 | the remote name becomes the update's name; remote audio (video) tracks are removed when the update reports none, and none are added; it throws exactly when there is no remote stream and a track is reported missing |
| `Signalling.Client.HandleNegotiation` | public/index.js:175-182 | an offer is requested exactly when a connection exists |
| `Signalling.Client.DescriptionCreated` | public/index.js:93-98 | a created offer or answer goes to `setLocalDescription`; a failed creation does nothing |
| `Signalling.Client.SetLocalAndSendMessage` | public/index.js:139-151 | the description is applied locally when a connection exists, and nothing is sent yet |
| `Signalling.Client.LocalDescriptionSet` | public/index.js:143-150 | the description is emitted and the timer restarted exactly when applying it succeeded; a failure changes nothing |
| `Signalling.Client.RemoteDescriptionSet` | public/index.js:89-106 | on success an offer leads to an answer request and an answer to a status update; a failure changes nothing and emits nothing |
| `Signalling.Client.OnTrack` | public/index.js:185-205 | a video track replaces the remote video tracks, any track joins the remote stream once; it throws without a remote stream |
| `Signalling.Client.OnIceCandidate` | public/index.js:164-172 | a local candidate is emitted and the timer restarted; the end-of-candidates event changes nothing |
| `Signalling.Client.SetupCamera` | public/index.js:364-365 | the camera is requested, chained to the microphone when asked |
| `Signalling.Client.SetupMicrophone` | public/index.js:441-442 | the microphone is requested |
| `Signalling.Client.CameraSettled` | public/index.js:366-392 | the camera stream is kept (none on failure), its first track goes to an existing connection, the status is sent when connected, and the microphone is requested when chained |
| `Signalling.Client.MicrophoneSettled` | public/index.js:443-463 | the microphone stream is kept (none on failure), all its tracks go to an existing connection, and the status is sent when connected |
| `Signalling.Client.StopCamera` | public/index.js:396-406 | the camera's tracks are stopped, the camera stream is gone and the status is sent |
| `Signalling.Client.StopMicrophone` | public/index.js:467-477 | the microphone's tracks are stopped, the microphone stream is gone and the status is sent |
| `Signalling.Client.CameraButton` | public/index.js:513-519 | a running camera is stopped, otherwise one is requested |
| `Signalling.Client.MicrophoneButton` | public/index.js:521-528 | a running microphone is stopped, otherwise one is requested |
| `Signalling.Client.PingButton` | public/index.js:581-586 | a `ping` is emitted and the timer restarted |
| `Signalling.Client.EditName` | public/index.js:543-553 | the name is kept and sent to the other page when connected |
| `Signalling.Client.BeforeUnload` | public/index.js:617-619 | closing the tab emits `end` |
| `Signalling.Client.ShowHomeScreenAsWritten` | public/index.js:311-324 | as written, the home screen leaves a freshly armed timer pending |
| `Signalling.Client.ShowHomeScreen` | public/index.js:311-324 | on `empty`/`full` and at the end of a call: no room, no remote name, no streams, their tracks stopped, status sent, URL without code, and no timer pending |
| `Signalling.Client.EndCallAsWritten` | public/index.js:296-308 | as the page runs it: `end` is emitted, the connection is gone, no room, no remote name, no streams, their tracks stopped, status sent, URL without code, and a freshly armed timer left pending; also run on the server's `end` and the socket's `disconnect` |
| `Signalling.Client.EndCall` | public/index.js:296-308 | with the corrected showHomeScreen: `end` is emitted, the connection is gone, then everything `ShowHomeScreen` states holds, with no timer pending |

## Left out

- **Presentation.** All jQuery and DOM updates are out: `toggleCameraUI`, `toggleMicrophoneUI`, `showRoomInfo`, `rescaleVideo`, the alerts, the ping prompt and the sound effects. They only change what is displayed.
- **Foreign configuration.** The `getUserMedia` constraint objects and the ICE server list are out.
- **WebRTC internals.** Descriptions and candidates are opaque values. The model records each `RTCPeerConnection` call and its outcome. It does not model `addTrack` rejecting a track that was already added, or a description object that cannot be constructed.
- **Browser I/O.** `$.get` is modelled as the `FetchRoomId` call and the `RoomIdReceived` callback. `window.history.replaceState` is modelled as the `location` field. `localStorage` is modelled as a constructor parameter. The copy-link button (clipboard) is not modelled.
- **Server plumbing.** Express setup, CORS headers, static files, the 404 route and `server.listen` are out.
- **The socket.io adapter.** Only the room map is modelled. The room that socket.io keeps under each connection's own id is not in the table. Removing a closed connection from its rooms is the separate step `DisconnectStep`.
- **Other payloads.** Event payloads that are not strings or envelopes (for example a `create` with a number) are not modelled.
- **Asynchrony.** Each callback is an atomic method, so the interleaving of callbacks is whatever order the caller chooses. Nothing ties a callback to the call in `calls` it answers.
- **Timers.** Real time is out. Timer ids are unbounded naturals.
- **Unmodelled handlers.** The page-load join (public/index.js:605-613) uses the same path as `JoinRoomButton` and has no method of its own. The `empty` and `full` handlers (public/index.js:122-131) are `ShowHomeScreenAsWritten` as the page runs them, `ShowHomeScreen` when corrected. The `end` and `disconnect` handlers (public/index.js:119, public/index.js:134-136) are `EndCallAsWritten` as the page runs them, `EndCall` when corrected.
- `RoomIds.GenerateId`: the source retries for ever. The model stops with `None` when the supplied draws run out, and it states which candidates were tried.
- `RoomIds.CharIndex`: `Math.random() * 62` is exact real arithmetic here, not a double. The bound `floor(r * 62) < 62` also holds for doubles below 1.
- `Signalling.Client.ShowHomeScreen`: it uses the corrected order (see Findings), not the order the page runs. The page's own order is `ShowHomeScreenAsWritten`, which leaves a timer pending.
- `Signalling.Client.EndCall`: it goes home through the corrected `ShowHomeScreen`, so its `pendingTimers == {}` is not what the page's `endCall` gives. The same holds for the `empty` and `full` handlers. `EndCallAsWritten` is the page's own order and leaves a timer pending.

## Findings

| source | as written | input that shows it | evidently intended | confidence | as-written member | corrected member |
|---|---|---|---|---|---|---|
| index.js:40 | `io.sockets.adapter.rooms[id] === undefined` reads a property of the adapter's `Map`, never one of its entries, so no generated id is ever rejected | room `aaaaaaaaaa` active and ten draws of 0.0: the candidate `aaaaaaaaaa` is accepted (`RoomIds.AsWrittenAcceptsActiveRoom`) | a lookup on the map's entries, as the `create` and `join` handlers do with `.get`, so that only an id with no active room is returned | not executed; high | `RoomIds.GenerateIdAsWritten` | `RoomIds.GenerateFreshId` |
| public/index.js:319-323 | `cancelTimer()` runs before `stopCamera()` and `stopMicrophone()`, and each of those sends a status update that arms the inactivity timer again | any `endCall`, `empty` or `full`: a fresh timer is left pending on the home screen | the inactivity timer stopped on returning home | not executed; high | `Signalling.Client.ShowHomeScreenAsWritten` | `Signalling.Client.ShowHomeScreen` |
