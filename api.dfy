/** The values the WebRTC signalling engine of signaling/rtm/webrtc.go works on:
    the envelope it receives and relays, the replies it sends, its typed errors,
    the channels kept in the manager's registry, and the results of the
    collaborators that are defined outside that file. */
module Api {
  import opened Wrappers
  import opened ChannelHash

  type UserId = string
  type ChannelId = string

  /** The identity of a connection object; two connections are equal when they are the same object. */
  type ConnId = nat

  /** minimalWebRTCPayloadVersion (webrtc.go:36); versions are uint64, so unsigned. */
  const MinimalVersion: nat := 0

  /** currentWebRTCPayloadVersion (webrtc.go:41), stamped on what the server generates. */
  const CurrentVersion: nat := 20180703

  /** api.RTMTypeNameWebRTC, the `type` of every WebRTC envelope the server builds. */
  const TypeWebRTC: string := "webrtc"

  /** The WebRTC subtypes the dispatcher knows, the reply-only Channel subtype,
      and any other subtype string.  The wire strings of the named variants
      are never carried by `OtherSubtype`: a message whose subtype string is
      that of Call, say, is `WebRTCCall`, so `OtherSubtype` stands only for
      strings the source's switch does not list. */
  datatype Subtype =
    | WebRTCGroup
    | WebRTCCall
    | WebRTCHangup
    | WebRTCSignal
    | WebRTCChannel
    | OtherSubtype(name: string)

  /** A media pipeline attached to a channel: its id and mode. */
  datatype Pipeline = Pipeline(id: string, mode: string)

  /** The group part of the channel extra data: the group and its member ids. */
  datatype GroupInfo = GroupInfo(group: string, members: set<UserId>)

  /** RTMDataWebRTCChannelExtra, the JSON the server places in a reply's data. */
  datatype ChannelExtra = ChannelExtra(group: Option<GroupInfo>, pipeline: Option<Pipeline>)

  /** An envelope's data: raw bytes from a client, or extra data built by the server. */
  datatype Data = Raw(bytes: seq<bv8>) | Extra(extra: ChannelExtra)

  /** RTMTypeWebRTC: one signalling envelope.  `data == None` is a nil payload. */
  datatype Envelope = Envelope(
    msgType: string,
    subtype: Subtype,
    id: nat,
    version: nat,
    source: UserId,
    target: string,
    group: string,
    state: string,
    channel: ChannelId,
    hash: string,
    data: Option<Data>,
    initiator: bool)

  /** What `Send` puts on a connection: a RTMTypeWebRTCReply (type webrtc,
      subtype channel) or a signalling envelope. */
  datatype Payload =
    | Reply(replyTo: nat, channel: ChannelId, hash: string, data: Option<Data>, version: nat)
    | Message(msg: Envelope)

  /** One `connection.Send`. */
  datatype Delivery = Delivery(to: ConnId, payload: Payload)

  /** The machine-readable codes of RTMTypeError.  `OtherCode` stands only for
      codes other than bad_message and no_session_for_user, which are always
      `BadMessage` and `NoSessionForUser`. */
  datatype ErrorCode = BadMessage | NoSessionForUser | OtherCode(name: string)

  /** An error returned by the engine: an RTM error correlated to a request id,
      or a plain Go error. */
  datatype Error =
    | RtmError(code: ErrorCode, text: string, ref: nat)
    | PlainError(text: string)

  /** The result of handling one message.  `Panic` is a Go run-time panic
      (a type assertion on a nil record, a nil pointer dereference). */
  datatype Outcome = Ok | Err(error: Error) | Panic(reason: string)

  /** A BadMessage error correlated to request `ref`. */
  function Rejected(text: string, ref: nat): Outcome
  {
    Err(RtmError(BadMessage, text, ref))
  }

  /** A NoSessionForUser error correlated to request `ref`. */
  function NoSession(ref: nat): Outcome
  {
    Err(RtmError(NoSessionForUser, "target not found", ref))
  }

  /** A channel: its id, its group, its membership (one connection per user)
      and its optional pipeline. */
  datatype Channel = Channel(id: ChannelId, group: string, members: map<UserId, ConnId>, pipeline: Option<Pipeline>)

  /** The manager's channel registry.  A value `None` is a nil record, which a
      get-or-create whose construction failed leaves behind. */
  type Registry = map<ChannelId, Option<Channel>>

  /** LookupConnectionsByUserID: every live connection of a user, in order. */
  type Directory = map<UserId, seq<ConnId>>

  /** One recorded call of `channel.Forward(from, to, connection, msg)`. */
  datatype ForwardCall = ForwardCall(channel: ChannelId, from: UserId, to: string, conn: Option<ConnId>, msg: Envelope)

  /** The result of CreateNamedGroupChannelID. */
  datatype NamedId = NamedOk(id: ChannelId) | NamedErr(text: string)

  /** The result of CreateKnownChannel: failure, or a new empty channel with its pipeline. */
  datatype Creation = CreateFailed | Created(pipeline: Option<Pipeline>)

  /** The result of CreateRandomChannel: an error, or a fresh random id with its pipeline. */
  datatype RandomCreation = RandomFailed(reason: string) | RandomCreated(id: ChannelId, pipeline: Option<Pipeline>)

  /** json.Unmarshal of a responder's data into a *RTMDataWebRTCAccept: a
      decoding error, the JSON literal `null` (the pointer stays nil), or a value. */
  datatype Decoded = Malformed(text: string) | Null | Accept(accept: bool, reason: string)

  /** Process-wide deterministic collaborators: HMAC under the process key,
      base64 encoding, and the derivation of group channel ids. */
  datatype Services = Services(mac: Mac, base64: Tag -> string, groupChannelId: string -> NamedId)

  /** What the collaborators that webrtc.go calls, but does not define,
      answer for one message. */
  datatype Oracle = Oracle(
    createKnown: Creation,
    createRandom: RandomCreation,
    add: Option<string>,
    check: Option<Error>,
    accept: Decoded,
    marshalError: Option<string>,
    forward: Option<Error>)
}
