/**
 * The events exchanged over the relay channel between a browser tab and the
 * rendezvous server, and the signalling envelopes the server relays blindly.
 */
module Protocol {

  /** A transport-level connection, as the server identifies it. */
  type ConnId = nat

  /** A room name: whatever string a client sends with `create` or `join`. */
  type RoomName = string

  /** A session description and an ICE candidate are opaque to this model. */
  type Sdp = string
  type IceCandidate = string

  /** The `message` payloads, discriminated by their `type` field. */
  datatype Envelope =
    | Offer(sdp: Sdp)
    | Answer(sdp: Sdp)
    | Candidate(candidate: IceCandidate)
    | StatusUpdate(audio: bool, video: bool, name: string)
    | Ping
    | Other(kind: string)  // any other `type` value

  /** Events a client emits to the server. */
  datatype ClientEvent =
    | CreateRoom(room: RoomName)
    | JoinRoom(room: RoomName)
    | Send(message: Envelope)
    | Leave  // the `end` event

  /** Events the server emits to clients. */
  datatype ServerEvent =
    | Ready
    | Full
    | Empty
    | End
    | Relayed(message: Envelope)  // the `message` event
}
