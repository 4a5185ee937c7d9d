/** The Manager of signaling/rtm as far as webrtc.go uses it: the channel
    registry it updates, the connection directory it reads, and the sends and
    `Forward` calls it makes, recorded in order.  Its handler methods follow
    the source statement by statement and are proved to have exactly the
    effect that module WebRTC specifies. */
module Rtm {
  import opened Wrappers
  import opened ChannelHash
  import opened Api
  import opened WebRTC

  class Manager {
    /** HMAC under the process key, base64, and group channel id derivation. */
    const services: Services
    /** m.channels: channel id to channel record. */
    var channels: Registry
    /** What LookupConnectionsByUserID answers. */
    var connections: Directory
    /** Every `connection.Send`, in order. */
    var outbox: seq<Delivery>
    /** Every `channel.Forward` call, in order. */
    var forwarded: seq<ForwardCall>

    constructor (services: Services, connections: Directory)
      ensures this.services == services && this.connections == connections
      ensures channels == map[] && outbox == [] && forwarded == []
    {
      this.services := services;
      this.connections := connections;
      channels := map[];
      outbox := [];
      forwarded := [];
    }

    /** LookupConnectionsByUserID. */
    method LookupConnectionsByUserID(user: UserId) returns (conns: seq<ConnId>, ok: bool)
      ensures ok <==> user in connections
      ensures ok ==> conns == connections[user]
      ensures !ok ==> conns == []
    {
      if user in connections {
        conns, ok := connections[user], true;
      } else {
        conns, ok := [], false;
      }
    }

    /** connection.Send. */
    method Send(to: ConnId, p: Payload)
      modifies this`outbox
      ensures outbox == old(outbox) + [Delivery(to, p)]
    {
      outbox := outbox + [Delivery(to, p)];
    }

    /** Sends `p` to each connection of `conns` in turn, in order
        (webrtc.go:293-295 and 459-461). */
    method SendToAll(conns: seq<ConnId>, p: Payload)
      modifies this`outbox
      ensures outbox == old(outbox) + FanOut(conns, p)
    {
      var i := 0;
      while i < |conns|
        invariant 0 <= i <= |conns|
        invariant outbox == old(outbox) + FanOut(conns[..i], p)
      {
        Send(conns[i], p);
        assert conns[..i + 1][..i] == conns[..i];
        i := i + 1;
      }
      assert conns[..|conns|] == conns;
    }

    /** The same loop skipping the connection at hand (webrtc.go:368-373). */
    method SendToOthers(conns: seq<ConnId>, skip: ConnId, p: Payload)
      modifies this`outbox
      ensures outbox == old(outbox) + FanOutExcept(conns, skip, p)
    {
      var i := 0;
      while i < |conns|
        invariant 0 <= i <= |conns|
        invariant outbox == old(outbox) + FanOutExcept(conns[..i], skip, p)
      {
        if conns[i] != skip {
          Send(conns[i], p);
        }
        assert conns[..i + 1][..i] == conns[..i];
        i := i + 1;
      }
      assert conns[..|conns|] == conns;
    }

    /** m.channels.Upsert with the get-or-create callback of webrtc.go:123-141. */
    method Upsert(id: ChannelId, group: string, creation: Creation) returns (record: Option<Channel>)
      modifies this`channels
      ensures (channels, record) == GetOrCreate(old(channels), id, group, creation)
    {
      if id in channels && channels[id].Some? {
        record := channels[id];
      } else {
        if creation.Created? {
          record := Some(Channel(id, group, map[], creation.pipeline));
        } else {
          record := None;
        }
        channels := channels[id := record];
      }
    }

    /** The Group branch of processWebRTCMessage (webrtc.go:92-196). */
    method HandleGroup(c: ConnId, bound: Option<UserId>, msg: Envelope, o: Oracle) returns (r: Outcome)
      modifies this
      ensures var s := ProcessGroup(services, old(channels), c, bound, msg, o);
        channels == s.channels && outbox == old(outbox) + s.sends && forwarded == old(forwarded) + s.forwards
        && connections == old(connections) && r == s.result
    {
      if bound.None? {
        return Rejected("connection has no user", msg.id);
      }
      var ur := bound.value;
      if msg.target == "" {
        return Rejected("target is empty", msg.id);
      }
      if msg.target != msg.group {
        return Rejected("target and group mismatch", msg.id);
      }
      if msg.state == "" {
        return Rejected("state is empty", msg.id);
      }
      if msg.source != "" {
        return Rejected("source must be empty", msg.id);
      }
      var named := services.groupChannelId(msg.group);
      if named.NamedErr? {
        return Rejected(named.text, msg.id);
      }
      var channelId := named.id;
      var record := Upsert(channelId, msg.group, o.createKnown);
      if record.None? {
        return Err(PlainError("channel upsert without result"));
      }
      var channel := record.value;
      if o.add.Some? {
        return Rejected(o.add.value, msg.id);
      }
      channel := Join(channel, ur, c);
      channels := channels[channelId := Some(channel)];
      var hash := Compute(services.mac, msg.msgType, ur, msg.group, channel.id);
      var m := msg.(source := ur, channel := channel.id, hash := services.base64(hash));
      if o.marshalError.Some? {
        return Err(PlainError("failed to encode group data: " + o.marshalError.value));
      }
      Send(c, GroupReply(m.id, channel, m.hash, m.group));
      return Ok;
    }

    /** The initiator half of the Call branch (webrtc.go:224-295); `ur` is the caller. */
    method HandleCallInitiator(c: ConnId, ur: UserId, msg: Envelope, o: Oracle) returns (r: Outcome)
      modifies this
      ensures var s := ProcessCallInitiator(services, old(channels), old(connections), c, ur, msg, o);
        channels == s.channels && outbox == old(outbox) + s.sends && forwarded == old(forwarded) + s.forwards
        && connections == old(connections) && r == s.result
    {
      if msg.channel != "" || msg.hash != "" {
        return Rejected("channel and hash must be empty", msg.id);
      }
      if msg.data.Some? {
        return Rejected("data must be empty", msg.id);
      }
      if o.createRandom.RandomFailed? {
        return Err(PlainError("failed to create channel: " + o.createRandom.reason));
      }
      var channel := Channel(o.createRandom.id, "", map[], o.createRandom.pipeline);
      if o.add.Some? {
        return Rejected(o.add.value, msg.id);
      }
      channel := Join(channel, ur, c);
      if channel.id !in channels {
        channels := channels[channel.id := Some(channel)];
      }
      var extra: Option<Data> := None;
      if channel.pipeline.Some? {
        if o.marshalError.Some? {
          return Err(PlainError("failed to encode channel extra data: " + o.marshalError.value));
        }
        extra := Some(Extra(ChannelExtra(None, channel.pipeline)));
      }
      r := SendOffer(c, ur, msg, channel.id, extra);
    }

    /** The reply to self and the offer to the target (webrtc.go:261-295). */
    method SendOffer(c: ConnId, ur: UserId, msg: Envelope, cid: ChannelId, extra: Option<Data>) returns (r: Outcome)
      modifies this`outbox
      ensures var s := Offer(services, channels, connections, c, ur, msg, cid, extra);
        outbox == old(outbox) + s.sends && s.channels == channels && s.forwards == [] && r == s.result
    {
      var hash := Compute(services.mac, msg.msgType, ur, msg.target, cid);
      var m := msg.(source := ur, channel := cid, hash := services.base64(hash), data := extra);
      var reply := Delivery(c, Reply(m.id, m.channel, m.hash, m.data, CurrentVersion));
      Send(c, Reply(m.id, m.channel, m.hash, m.data, CurrentVersion));
      m := m.(id := 0);
      var conns, ok := LookupConnectionsByUserID(m.target);
      if !ok {
        return NoSession(m.id);
      }
      SendToAll(conns, Message(m));
      assert outbox == old(outbox) + ([reply] + FanOut(conns, Message(m)));
      return Ok;
    }

    /** The responder half of the Call branch (webrtc.go:297-388); `ur` is the responder. */
    method HandleCallResponder(c: ConnId, ur: UserId, msg: Envelope, o: Oracle) returns (r: Outcome)
      modifies this
      ensures var s := ProcessCallResponder(services, old(channels), old(connections), c, ur, msg, o);
        channels == s.channels && outbox == old(outbox) + s.sends && forwarded == old(forwarded) + s.forwards
        && connections == old(connections) && r == s.result
    {
      if msg.channel == "" || msg.hash == "" || msg.data.None? {
        return Rejected("channel, hash or data is empty", msg.id);
      }
      if msg.channel !in channels {
        return Rejected("channel not found", msg.id);
      }
      var record := channels[msg.channel];
      if record.None? {
        return Panic("interface conversion: nil channel record");
      }
      var channel := record.value;
      if o.check.Some? {
        return Err(o.check.value);
      }
      if o.accept.Malformed? {
        return Err(PlainError(o.accept.text));
      }
      if o.accept.Null? {
        return Panic("nil pointer dereference: accept data");
      }
      r := HandleDecision(c, ur, msg, channel, o.accept.accept, o.accept.reason, o.add);
    }

    /** The accept or reject decision of a responder (webrtc.go:323-387). */
    method HandleDecision(c: ConnId, ur: UserId, msg: Envelope, ch: Channel, accept: bool, reason: string,
                          addError: Option<string>) returns (r: Outcome)
      modifies this`channels, this`outbox
      ensures var s := Respond(services, old(channels), connections, c, ur, msg, ch, accept, reason, addError);
        channels == s.channels && outbox == old(outbox) + s.sends && s.forwards == [] && r == s.result
    {
      var channel := ch;
      var m := msg;
      if m.group != "" {
        if !accept {
          return Rejected("accept required for group call", m.id);
        }
        var hash := Compute(services.mac, m.msgType, ur, m.target, channel.id);
        m := m.(hash := services.base64(hash));
      } else {
        if accept {
          if addError.Some? {
            return Rejected(addError.value, m.id);
          }
          channel := Join(channel, ur, c);
          channels := channels[m.channel := Some(channel)];
        }
        var conns, found := LookupConnectionsByUserID(ur);
        if found {
          if !accept && reason == "reject_busy" && |conns| > 1 {
            return Ok;
          }
          SendToOthers(conns, c, Message(ClearedCall(m.channel, m.target)));
        }
      }
      m := m.(source := ur, id := 0);
      if m.target !in channel.members {
        return NoSession(m.id);
      }
      Send(channel.members[m.target], Message(m));
      return Ok;
    }

    /** The shared Hangup and Signal branch (webrtc.go:390-474). */
    method HandleSignal(bound: Option<UserId>, msg: Envelope, o: Oracle) returns (r: Outcome)
      modifies this
      ensures var s := ProcessSignal(old(channels), old(connections), bound, msg, o);
        channels == s.channels && outbox == old(outbox) + s.sends && forwarded == old(forwarded) + s.forwards
        && connections == old(connections) && r == s.result
    {
      if bound.None? {
        return Rejected("connection has no user", msg.id);
      }
      if msg.state == "" {
        return Rejected("state is empty", msg.id);
      }
      if msg.source != "" {
        return Rejected("source must be empty", msg.id);
      }
      if msg.channel == "" || msg.hash == "" || msg.data.None? {
        return Rejected("channel hash or data is empty", msg.id);
      }
      var ur := bound.value;
      if msg.channel !in channels {
        return Rejected("channel not found", msg.id);
      }
      var record := channels[msg.channel];
      if record.None? {
        return Panic("interface conversion: nil channel record");
      }
      var channel := record.value;
      if o.check.Some? {
        return Err(o.check.value);
      }
      var targetConnection: Option<ConnId> := None;
      var ok: bool;
      if msg.group != "" && msg.target == msg.group {
        ok := true;
      } else if msg.target != "" {
        ok := msg.target in channel.members;
        if ok {
          targetConnection := Some(channel.members[msg.target]);
        }
      } else {
        ok := false;
      }
      if msg.subtype == WebRTCHangup {
        channel := Leave(channel, ur);
        channels := channels[msg.channel := Some(channel)];
        if !ok {
          var ref := msg.id;
          var m := msg.(source := ur, id := 0);
          var conns, found := LookupConnectionsByUserID(m.target);
          if !found {
            return NoSession(ref);
          }
          SendToAll(conns, Message(m));
          return Ok;
        }
      }
      if ok || targetConnection.Some? {
        forwarded := forwarded + [ForwardCall(msg.channel, ur, msg.target, targetConnection, msg)];
        return if o.forward.Some? then Err(o.forward.value) else Ok;
      }
      return NoSession(msg.id);
    }

    /** processWebRTCMessage (webrtc.go:86-481). */
    method ProcessWebRTCMessage(c: ConnId, bound: Option<UserId>, msg: Envelope, o: Oracle) returns (r: Outcome)
      modifies this
      ensures var s := Process(services, old(channels), old(connections), c, bound, msg, o);
        channels == s.channels && outbox == old(outbox) + s.sends && forwarded == old(forwarded) + s.forwards
        && connections == old(connections) && r == s.result
    {
      if msg.version < MinimalVersion {
        return Rejected("outdated WebRTC payload version", msg.id);
      }
      match msg.subtype {
        case WebRTCGroup =>
          r := HandleGroup(c, bound, msg, o);
        case WebRTCCall =>
          if bound.None? {
            return Rejected("connection has no user", msg.id);
          }
          var ur := bound.value;
          if msg.target == "" {
            return Rejected("target is empty", msg.id);
          }
          if msg.target == ur {
            return Rejected("target same as source", msg.id);
          }
          if msg.state == "" {
            return Rejected("state is empty", msg.id);
          }
          if msg.source != "" {
            return Rejected("source must be empty", msg.id);
          }
          if msg.initiator {
            r := HandleCallInitiator(c, ur, msg, o);
          } else {
            r := HandleCallResponder(c, ur, msg, o);
          }
        case WebRTCHangup =>
          r := HandleSignal(bound, msg, o);
        case WebRTCSignal =>
          r := HandleSignal(bound, msg, o);
        case _ =>
          r := Rejected("unknown subtype", msg.id);
      }
    }

    /** onWebRTC (webrtc.go:69-84): process, then hide NoSessionForUser. */
    method HandleWebRTC(c: ConnId, bound: Option<UserId>, msg: Envelope, o: Oracle) returns (r: Outcome)
      modifies this
      ensures var s := Process(services, old(channels), old(connections), c, bound, msg, o);
        channels == s.channels && outbox == old(outbox) + s.sends && forwarded == old(forwarded) + s.forwards
        && connections == old(connections) && r == OnWebRTC(s.result)
    {
      var processed := ProcessWebRTCMessage(c, bound, msg, o);
      r := OnWebRTC(processed);
    }
  }
}
