/** The signalling engine of signaling/rtm/webrtc.go as functions of the
    manager's state: what processWebRTCMessage does to the channel registry,
    which envelopes it sends to which connections, which `Forward` calls it
    makes, and what it returns; and the error policy of onWebRTC.  The
    imperative handler in module Rtm is proved to do exactly this. */
module WebRTC {
  import opened Wrappers
  import opened ChannelHash
  import opened Api

  /** The effect of processing one message. */
  datatype Step = Step(channels: Registry, sends: seq<Delivery>, forwards: seq<ForwardCall>, result: Outcome)

  /** A step that changes nothing and returns `result`. */
  function Stop(reg: Registry, result: Outcome): Step
  {
    Step(reg, [], [], result)
  }

  /** channel.Add on success: the user's single connection in the channel becomes `conn`. */
  function Join(ch: Channel, user: UserId, conn: ConnId): Channel
  {
    ch.(members := ch.members[user := conn])
  }

  /** channel.Remove. */
  function Leave(ch: Channel, user: UserId): Channel
  {
    ch.(members := ch.members - {user})
  }

  /** The registry's Upsert with the callback of webrtc.go:123-141: keep an
      existing non-nil record, otherwise store what CreateKnownChannel built,
      or nil when it failed.  Returns the new registry and the record. */
  function GetOrCreate(reg: Registry, id: ChannelId, group: string, creation: Creation): (r: (Registry, Option<Channel>))
    ensures id in r.0 && r.0[id] == r.1
    ensures r.0 - {id} == reg - {id}
    ensures id in reg && reg[id].Some? ==> r.0 == reg
    ensures !(id in reg && reg[id].Some?) ==>
      r.1 == (if creation.Created? then Some(Channel(id, group, map[], creation.pipeline)) else None)
  {
    if id in reg && reg[id].Some? then (reg, reg[id])
    else
      var record := if creation.Created? then Some(Channel(id, group, map[], creation.pipeline)) else None;
      (reg[id := record], record)
  }

  /** The registry's SetIfAbsent (webrtc.go:246). */
  function SetIfAbsent(reg: Registry, id: ChannelId, ch: Channel): (r: Registry)
    ensures id in r && r - {id} == reg - {id}
    ensures id in reg ==> r == reg
    ensures id !in reg ==> r[id] == Some(ch)
  {
    if id in reg then reg else reg[id := Some(ch)]
  }

  /** One `Send` of `p` to every connection of `conns`, in order. */
  function FanOut(conns: seq<ConnId>, p: Payload): (r: seq<Delivery>)
    ensures |r| == |conns|
    ensures forall i :: 0 <= i < |conns| ==> r[i] == Delivery(conns[i], p)
    decreases |conns|
  {
    if conns == [] then [] else FanOut(conns[..|conns| - 1], p) + [Delivery(conns[|conns| - 1], p)]
  }

  /** The connections of `conns` other than `skip`, in their order. */
  function Except(conns: seq<ConnId>, skip: ConnId): (r: seq<ConnId>)
    ensures |r| <= |conns|
    ensures forall k :: k in r <==> k in conns && k != skip
    decreases |conns|
  {
    if conns == [] then []
    else
      var last := conns[|conns| - 1];
      assert conns == conns[..|conns| - 1] + [last];
      Except(conns[..|conns| - 1], skip) + (if last == skip then [] else [last])
  }

  /** One `Send` of `p` to every connection of `conns` other than `skip`, in order. */
  function FanOutExcept(conns: seq<ConnId>, skip: ConnId, p: Payload): (r: seq<Delivery>)
    ensures |r| <= |conns|
    ensures forall d :: d in r ==> d.to in conns && d.to != skip && d.payload == p
    ensures forall k :: k in conns && k != skip ==> Delivery(k, p) in r
    decreases |conns|
  {
    if conns == [] then []
    else
      var last := conns[|conns| - 1];
      assert conns == conns[..|conns| - 1] + [last];
      FanOutExcept(conns[..|conns| - 1], skip, p) + (if last == skip then [] else [Delivery(last, p)])
  }

  /** Skipping a connection is the plain fan-out to the others: one send per
      remaining list entry, in order (an entry listed twice is sent to twice,
      as the source's loop does). */
  lemma {:induction false} FanOutExceptIsFanOut(conns: seq<ConnId>, skip: ConnId, p: Payload)
    ensures FanOutExcept(conns, skip, p) == FanOut(Except(conns, skip), p)
    decreases |conns|
  {
    if conns != [] {
      var last := conns[|conns| - 1];
      var init := conns[..|conns| - 1];
      FanOutExceptIsFanOut(init, skip, p);
      var others := Except(init, skip);
      if last != skip {
        assert (others + [last])[..|others|] == others;
      }
    }
  }

  /** The message a responder's other connections receive so that they stop
      ringing (webrtc.go:358-367). */
  function ClearedCall(channel: ChannelId, source: UserId): Envelope
  {
    Envelope(TypeWebRTC, WebRTCCall, 0, CurrentVersion, source, "", "", "", channel, "", None, true)
  }

  /** The reply to a group join (webrtc.go:166-196). */
  function GroupReply(ref: nat, ch: Channel, hash: string, group: string): Payload
  {
    Reply(ref, ch.id, hash, Some(Extra(ChannelExtra(Some(GroupInfo(group, ch.members.Keys)), ch.pipeline))), CurrentVersion)
  }

  /** The first failing validation of a Group message, in source order (webrtc.go:95-115). */
  function GroupPrecheck(bound: Option<UserId>, msg: Envelope): Option<string>
  {
    if bound.None? then Some("connection has no user")
    else if msg.target == "" then Some("target is empty")
    else if msg.target != msg.group then Some("target and group mismatch")
    else if msg.state == "" then Some("state is empty")
    else if msg.source != "" then Some("source must be empty")
    else None
  }

  /** The first failing validation common to both Call branches (webrtc.go:199-220). */
  function CallPrecheck(bound: Option<UserId>, msg: Envelope): Option<string>
  {
    if bound.None? then Some("connection has no user")
    else if msg.target == "" then Some("target is empty")
    else if msg.target == bound.value then Some("target same as source")
    else if msg.state == "" then Some("state is empty")
    else if msg.source != "" then Some("source must be empty")
    else None
  }

  /** The first failing validation of a Hangup or Signal message (webrtc.go:394-409). */
  function SignalPrecheck(bound: Option<UserId>, msg: Envelope): Option<string>
  {
    if bound.None? then Some("connection has no user")
    else if msg.state == "" then Some("state is empty")
    else if msg.source != "" then Some("source must be empty")
    else if msg.channel == "" || msg.hash == "" || msg.data.None? then Some("channel hash or data is empty")
    else None
  }

  /** Group: get or create the group's channel, join it, reply to self (webrtc.go:92-196). */
  function ProcessGroup(svc: Services, reg: Registry, c: ConnId, bound: Option<UserId>, msg: Envelope, o: Oracle): Step
  {
    var failure := GroupPrecheck(bound, msg);
    if failure.Some? then Stop(reg, Rejected(failure.value, msg.id))
    else
      match svc.groupChannelId(msg.group)
      case NamedErr(text) => Stop(reg, Rejected(text, msg.id))
      case NamedOk(cid) =>
        var up := GetOrCreate(reg, cid, msg.group, o.createKnown);
        if up.1.None? then Stop(up.0, Err(PlainError("channel upsert without result")))
        else if o.add.Some? then Stop(up.0, Rejected(o.add.value, msg.id))
        else
          var ur := bound.value;
          var ch := Join(up.1.value, ur, c);
          var reg' := up.0[cid := Some(ch)];
          var hash := svc.base64(Compute(svc.mac, msg.msgType, ur, msg.group, ch.id));
          if o.marshalError.Some? then Stop(reg', Err(PlainError("failed to encode group data: " + o.marshalError.value)))
          else Step(reg', [Delivery(c, GroupReply(msg.id, ch, hash, msg.group))], [], Ok)
  }

  /** Call, initiator: create a random channel, reply to self, offer to every
      connection of the target (webrtc.go:224-295).  `ur` is the caller. */
  function ProcessCallInitiator(svc: Services, reg: Registry, dir: Directory, c: ConnId, ur: UserId,
                                msg: Envelope, o: Oracle): Step
  {
    if msg.channel != "" || msg.hash != "" then Stop(reg, Rejected("channel and hash must be empty", msg.id))
    else if msg.data.Some? then Stop(reg, Rejected("data must be empty", msg.id))
    else
      match o.createRandom
      case RandomFailed(reason) => Stop(reg, Err(PlainError("failed to create channel: " + reason)))
      case RandomCreated(cid, pipeline) =>
        if o.add.Some? then Stop(reg, Rejected(o.add.value, msg.id))
        else
          var ch := Join(Channel(cid, "", map[], pipeline), ur, c);
          var reg' := SetIfAbsent(reg, cid, ch);
          if pipeline.Some? && o.marshalError.Some? then
            Stop(reg', Err(PlainError("failed to encode channel extra data: " + o.marshalError.value)))
          else
            var extra := if pipeline.Some? then Some(Extra(ChannelExtra(None, pipeline))) else None;
            Offer(svc, reg', dir, c, ur, msg, cid, extra)
  }

  /** The end of the initiator branch: the reply to self, then the offer, with
      its id cleared, to every connection of the target (webrtc.go:261-295). */
  function Offer(svc: Services, reg: Registry, dir: Directory, c: ConnId, ur: UserId,
                 msg: Envelope, cid: ChannelId, extra: Option<Data>): Step
  {
    var hash := svc.base64(Compute(svc.mac, msg.msgType, ur, msg.target, cid));
    var reply := Delivery(c, Reply(msg.id, cid, hash, extra, CurrentVersion));
    var offer := msg.(source := ur, channel := cid, hash := hash, data := extra, id := 0);
    if msg.target !in dir then Step(reg, [reply], [], NoSession(0))
    else Step(reg, [reply] + FanOut(dir[msg.target], Message(offer)), [], Ok)
  }

  /** The last part of a Call response: the message goes to the target's
      connection inside the channel (webrtc.go:378-387). */
  function Answer(reg: Registry, ch: Channel, out: Envelope, prior: seq<Delivery>): Step
  {
    if out.target in ch.members then Step(reg, prior + [Delivery(ch.members[out.target], Message(out))], [], Ok)
    else Step(reg, prior, [], NoSession(out.id))
  }

  /** Call, responder: validate against the channel, then accept or reject,
      in group mode or 1:1 (webrtc.go:297-388). */
  function ProcessCallResponder(svc: Services, reg: Registry, dir: Directory, c: ConnId, ur: UserId,
                                msg: Envelope, o: Oracle): Step
  {
    if msg.channel == "" || msg.hash == "" || msg.data.None? then Stop(reg, Rejected("channel, hash or data is empty", msg.id))
    else if msg.channel !in reg then Stop(reg, Rejected("channel not found", msg.id))
    else if reg[msg.channel].None? then Stop(reg, Panic("interface conversion: nil channel record"))
    else if o.check.Some? then Stop(reg, Err(o.check.value))
    else
      match o.accept
      case Malformed(text) => Stop(reg, Err(PlainError(text)))
      case Null => Stop(reg, Panic("nil pointer dereference: accept data"))
      case Accept(accept, reason) => Respond(svc, reg, dir, c, ur, msg, reg[msg.channel].value, accept, reason, o.add)
  }

  /** The decision of a responder whose message passed the channel's checks
      (webrtc.go:323-387): `ch` is the channel and `accept`, `reason` the
      decoded data; `addError` is what channel.Add answers. */
  function Respond(svc: Services, reg: Registry, dir: Directory, c: ConnId, ur: UserId, msg: Envelope,
                   ch: Channel, accept: bool, reason: string, addError: Option<string>): Step
  {
    if msg.group != "" then
      if !accept then Stop(reg, Rejected("accept required for group call", msg.id))
      else
        var hash := svc.base64(Compute(svc.mac, msg.msgType, ur, msg.target, ch.id));
        Answer(reg, ch, msg.(hash := hash, source := ur, id := 0), [])
    else if accept && addError.Some? then Stop(reg, Rejected(addError.value, msg.id))
    else
      var ch' := if accept then Join(ch, ur, c) else ch;
      var reg' := if accept then reg[msg.channel := Some(ch')] else reg;
      if ur in dir && !accept && reason == "reject_busy" && |dir[ur]| > 1 then Stop(reg', Ok)
      else
        var cleared := if ur in dir then FanOutExcept(dir[ur], c, Message(ClearedCall(msg.channel, msg.target))) else [];
        Answer(reg', ch', msg.(source := ur, id := 0), cleared)
  }

  /** Hangup and Signal: validate against the channel, resolve the target,
      leave the channel on hangup, and forward or deliver directly
      (webrtc.go:390-474). */
  function ProcessSignal(reg: Registry, dir: Directory, bound: Option<UserId>, msg: Envelope, o: Oracle): Step
  {
    var failure := SignalPrecheck(bound, msg);
    if failure.Some? then Stop(reg, Rejected(failure.value, msg.id))
    else if msg.channel !in reg then Stop(reg, Rejected("channel not found", msg.id))
    else if reg[msg.channel].None? then Stop(reg, Panic("interface conversion: nil channel record"))
    else if o.check.Some? then Stop(reg, Err(o.check.value))
    else
      var ur := bound.value;
      var ch := reg[msg.channel].value;
      var groupMode := msg.group != "" && msg.target == msg.group;
      var targetConn := if !groupMode && msg.target != "" && msg.target in ch.members then Some(ch.members[msg.target]) else None;
      var ok := groupMode || targetConn.Some?;
      var call := ForwardCall(msg.channel, ur, msg.target, targetConn, msg);
      var forwarded := if o.forward.Some? then Err(o.forward.value) else Ok;
      if msg.subtype == WebRTCHangup then
        var reg' := reg[msg.channel := Some(Leave(ch, ur))];
        if !ok then
          var out := msg.(source := ur, id := 0);
          if msg.target !in dir then Stop(reg', NoSession(msg.id))
          else Step(reg', FanOut(dir[msg.target], Message(out)), [], Ok)
        else Step(reg', [], [call], forwarded)
      else if ok then Step(reg, [], [call], forwarded)
      else Stop(reg, NoSession(msg.id))
  }

  /** processWebRTCMessage: the version check, then dispatch on the subtype
      (webrtc.go:86-481).  `c` is the connection the message arrived on and
      `bound` the user it is bound to, if any. */
  function Process(svc: Services, reg: Registry, dir: Directory, c: ConnId, bound: Option<UserId>,
                   msg: Envelope, o: Oracle): Step
  {
    if msg.version < MinimalVersion then Stop(reg, Rejected("outdated WebRTC payload version", msg.id))
    else
      match msg.subtype
      case WebRTCGroup => ProcessGroup(svc, reg, c, bound, msg, o)
      case WebRTCCall =>
        var failure := CallPrecheck(bound, msg);
        if failure.Some? then Stop(reg, Rejected(failure.value, msg.id))
        else if msg.initiator then ProcessCallInitiator(svc, reg, dir, c, bound.value, msg, o)
        else ProcessCallResponder(svc, reg, dir, c, bound.value, msg, o)
      case WebRTCHangup => ProcessSignal(reg, dir, bound, msg, o)
      case WebRTCSignal => ProcessSignal(reg, dir, bound, msg, o)
      case _ => Stop(reg, Rejected("unknown subtype", msg.id))
  }

  /** Is `r` an RTM error with code NoSessionForUser? */
  predicate IsNoSession(r: Outcome)
  {
    r.Err? && r.error.RtmError? && r.error.code == NoSessionForUser
  }

  /** onWebRTC's post-processing (webrtc.go:69-84): a NoSessionForUser error
      becomes success, so a client cannot learn whether a target is
      reachable; everything else, other RTM codes and plain errors included,
      passes through unchanged. */
  function OnWebRTC(processed: Outcome): (r: Outcome)
    ensures IsNoSession(processed) ==> r == Ok
    ensures !IsNoSession(processed) ==> r == processed
    ensures !IsNoSession(r)
    ensures r == Ok <==> processed == Ok || IsNoSession(processed)
  {
    match processed
    case Err(RtmError(NoSessionForUser, _, _)) => Ok
    case _ => processed
  }
}
