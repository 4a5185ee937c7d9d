/** What each branch of processWebRTCMessage does, stated over module
    WebRTC: the ordered validations and their errors, who receives which
    envelope, how the registry changes, and what comes out of onWebRTC. */
module WebRTCFlows {
  import opened Wrappers
  import opened ChannelHash
  import opened Api
  import opened WebRTC
  import opened WebRTCFacts

  // ---------------------------------------------------------------------
  // Group
  // ---------------------------------------------------------------------

  /** The Group checks, in source order, each answering BadMessage for the
      request with no effect (webrtc.go:95-115). */
  lemma GroupValidation(svc: Services, reg: Registry, dir: Directory, c: ConnId, bound: Option<UserId>,
                        msg: Envelope, o: Oracle)
    requires msg.subtype == WebRTCGroup
    ensures var s := Process(svc, reg, dir, c, bound, msg, o);
      && (bound.None? ==> s == Stop(reg, Rejected("connection has no user", msg.id)))
      && (bound.Some? && msg.target == "" ==> s == Stop(reg, Rejected("target is empty", msg.id)))
      && (bound.Some? && msg.target != "" && msg.target != msg.group ==>
            s == Stop(reg, Rejected("target and group mismatch", msg.id)))
      && (bound.Some? && msg.target != "" && msg.target == msg.group && msg.state == "" ==>
            s == Stop(reg, Rejected("state is empty", msg.id)))
      && (bound.Some? && msg.target != "" && msg.target == msg.group && msg.state != "" && msg.source != "" ==>
            s == Stop(reg, Rejected("source must be empty", msg.id)))
      && (GroupPrecheck(bound, msg).Some? ==> NoEffect(s, reg) && IsBadMessage(s.result, msg.id))
  {
  }

  /** A successful Group message: the derived channel is fetched if a non-nil
      record exists, created otherwise; the sender joins it; and exactly one
      reply goes, to the originating connection only, carrying the request
      id, the channel id, the tag over (type, sender, group, channel), the
      member list and pipeline, and the current version (webrtc.go:117-196). */
  lemma GroupJoin(svc: Services, reg: Registry, dir: Directory, c: ConnId, ur: UserId, msg: Envelope, o: Oracle,
                  cid: ChannelId)
    requires msg.subtype == WebRTCGroup && GroupPrecheck(Some(ur), msg).None?
    requires svc.groupChannelId(msg.group) == NamedOk(cid)
    requires Process(svc, reg, dir, c, Some(ur), msg, o).result == Ok
    ensures var s := Process(svc, reg, dir, c, Some(ur), msg, o);
      && cid in s.channels && s.channels[cid].Some?
      && s.channels - {cid} == reg - {cid}
      && var ch := s.channels[cid].value;
      && (cid in reg && reg[cid].Some? ==> ch == Join(reg[cid].value, ur, c))
      && (!(cid in reg && reg[cid].Some?) ==>
            o.createKnown.Created? && ch == Channel(cid, msg.group, map[ur := c], o.createKnown.pipeline))
      && ur in ch.members && ch.members[ur] == c
      && s.forwards == []
      && s.sends == [Delivery(c, Reply(msg.id, ch.id, svc.base64(Compute(svc.mac, msg.msgType, ur, msg.group, ch.id)),
                                       Some(Extra(ChannelExtra(Some(GroupInfo(msg.group, ch.members.Keys)), ch.pipeline))),
                                       CurrentVersion))]
  {
    var up := GetOrCreate(reg, cid, msg.group, o.createKnown);
    assert up.1.Some?;
  }

  /** A failed channel construction leaves a nil record under the group's id
      and returns a plain error, sending nothing (webrtc.go:123-147). */
  lemma GroupCreationFailure(svc: Services, reg: Registry, dir: Directory, c: ConnId, ur: UserId, msg: Envelope,
                             o: Oracle, cid: ChannelId)
    requires msg.subtype == WebRTCGroup && GroupPrecheck(Some(ur), msg).None?
    requires svc.groupChannelId(msg.group) == NamedOk(cid)
    requires !(cid in reg && reg[cid].Some?) && o.createKnown == CreateFailed
    ensures Process(svc, reg, dir, c, Some(ur), msg, o) == Stop(reg[cid := None], Err(PlainError("channel upsert without result")))
  {
  }

  /** A group id that cannot be derived is refused with the derivation's
      error text, for the request, with no effect (webrtc.go:118-121). */
  lemma GroupIdFailure(svc: Services, reg: Registry, dir: Directory, c: ConnId, ur: UserId, msg: Envelope,
                       o: Oracle, text: string)
    requires msg.subtype == WebRTCGroup && GroupPrecheck(Some(ur), msg).None?
    requires svc.groupChannelId(msg.group) == NamedErr(text)
    ensures Process(svc, reg, dir, c, Some(ur), msg, o) == Stop(reg, Rejected(text, msg.id))
  {
  }

  /** A membership conflict in Group: when channel.Add fails, the answer is
      BadMessage with Add's error text for the request; nothing is sent, and
      the registry keeps what the get-or-create stored (webrtc.go:152-155). */
  lemma GroupAddFailure(svc: Services, reg: Registry, dir: Directory, c: ConnId, ur: UserId, msg: Envelope,
                        o: Oracle, cid: ChannelId)
    requires msg.subtype == WebRTCGroup && GroupPrecheck(Some(ur), msg).None?
    requires svc.groupChannelId(msg.group) == NamedOk(cid)
    requires (cid in reg && reg[cid].Some?) || o.createKnown.Created?
    requires o.add.Some?
    ensures Process(svc, reg, dir, c, Some(ur), msg, o)
            == Stop(GetOrCreate(reg, cid, msg.group, o.createKnown).0, Rejected(o.add.value, msg.id))
  {
  }

  /** A failure to encode the group data returns a plain error carrying the
      encoder's text; the sender has joined the channel but nothing is sent
      (webrtc.go:180-183). */
  lemma GroupEncodingFailure(svc: Services, reg: Registry, dir: Directory, c: ConnId, ur: UserId, msg: Envelope,
                             o: Oracle, cid: ChannelId, e: string)
    requires msg.subtype == WebRTCGroup && GroupPrecheck(Some(ur), msg).None?
    requires svc.groupChannelId(msg.group) == NamedOk(cid)
    requires (cid in reg && reg[cid].Some?) || o.createKnown.Created?
    requires o.add.None? && o.marshalError == Some(e)
    ensures var s := Process(svc, reg, dir, c, Some(ur), msg, o);
      var up := GetOrCreate(reg, cid, msg.group, o.createKnown);
      && s == Stop(up.0[cid := Some(Join(up.1.value, ur, c))], Err(PlainError("failed to encode group data: " + e)))
  {
  }

  /** When a validated Group message with a derivable id succeeds: exactly
      when a channel is found or built, Add accepts the sender and the data
      encodes (webrtc.go:117-196). */
  lemma GroupJoinSucceeds(svc: Services, reg: Registry, dir: Directory, c: ConnId, ur: UserId, msg: Envelope,
                          o: Oracle, cid: ChannelId)
    requires msg.subtype == WebRTCGroup && GroupPrecheck(Some(ur), msg).None?
    requires svc.groupChannelId(msg.group) == NamedOk(cid)
    ensures Process(svc, reg, dir, c, Some(ur), msg, o).result == Ok
            <==> ((cid in reg && reg[cid].Some?) || o.createKnown.Created?) && o.add.None? && o.marshalError.None?
  {
  }

  /** The same group always resolves to the same channel: after one user's
      join, a second join of the same group (by anyone) gets the same channel
      id, and that channel then holds both (webrtc.go:118-124). */
  lemma GroupConvergence(svc: Services, reg: Registry, dir: Directory, c1: ConnId, u1: UserId, m1: Envelope, o1: Oracle,
                         c2: ConnId, u2: UserId, m2: Envelope, o2: Oracle, cid: ChannelId)
    requires m1.subtype == WebRTCGroup && GroupPrecheck(Some(u1), m1).None?
    requires m2.subtype == WebRTCGroup && GroupPrecheck(Some(u2), m2).None?
    requires m1.group == m2.group && svc.groupChannelId(m1.group) == NamedOk(cid)
    requires u1 != u2
    requires Process(svc, reg, dir, c1, Some(u1), m1, o1).result == Ok
    requires Process(svc, Process(svc, reg, dir, c1, Some(u1), m1, o1).channels, dir, c2, Some(u2), m2, o2).result == Ok
    ensures var s1 := Process(svc, reg, dir, c1, Some(u1), m1, o1);
      var s2 := Process(svc, s1.channels, dir, c2, Some(u2), m2, o2);
      && s1.sends[0].payload.channel == s2.sends[0].payload.channel
      && s2.channels[cid].Some?
      && s2.channels[cid].value.members[u1] == c1 && s2.channels[cid].value.members[u2] == c2
  {
    var s1 := Process(svc, reg, dir, c1, Some(u1), m1, o1);
    GroupJoin(svc, reg, dir, c1, u1, m1, o1, cid);
    GroupJoin(svc, s1.channels, dir, c2, u2, m2, o2, cid);
  }

  /** The first join of a group: a group nobody has joined yet; the reply names the derived channel, the tag over (type,
      sender, group, channel) and the sender as the only member. */
  lemma FirstGroupJoin(svc: Services, reg: Registry, dir: Directory, c: ConnId, a: UserId, msg: Envelope, o: Oracle,
                       cid: ChannelId, p: Option<Pipeline>)
    requires msg.subtype == WebRTCGroup && GroupPrecheck(Some(a), msg).None?
    requires svc.groupChannelId(msg.group) == NamedOk(cid) && cid !in reg
    requires o.createKnown == Created(p) && o.add.None? && o.marshalError.None?
    ensures var s := Process(svc, reg, dir, c, Some(a), msg, o);
      && s.result == Ok
      && s.sends == [Delivery(c, Reply(msg.id, cid, svc.base64(Compute(svc.mac, msg.msgType, a, msg.group, cid)),
                                       Some(Extra(ChannelExtra(Some(GroupInfo(msg.group, {a})), p))), CurrentVersion))]
  {
    assert map[a := c].Keys == {a};
  }

  // ---------------------------------------------------------------------
  // Call, initiator
  // ---------------------------------------------------------------------

  /** The Call checks shared by both halves, and the initiator's own: each
      answers BadMessage for the request with no effect (webrtc.go:199-231). */
  lemma CallValidation(svc: Services, reg: Registry, dir: Directory, c: ConnId, ur: UserId, msg: Envelope, o: Oracle)
    requires msg.subtype == WebRTCCall
    ensures var s := Process(svc, reg, dir, c, Some(ur), msg, o);
      && (msg.target == "" ==> s == Stop(reg, Rejected("target is empty", msg.id)))
      && (msg.target != "" && msg.target == ur ==> s == Stop(reg, Rejected("target same as source", msg.id)))
      && (msg.target != "" && msg.target != ur && msg.state == "" ==> s == Stop(reg, Rejected("state is empty", msg.id)))
      && (msg.target != "" && msg.target != ur && msg.state != "" && msg.source != "" ==>
            s == Stop(reg, Rejected("source must be empty", msg.id)))
      && (CallPrecheck(Some(ur), msg).None? && msg.initiator && (msg.channel != "" || msg.hash != "") ==>
            s == Stop(reg, Rejected("channel and hash must be empty", msg.id)))
      && (CallPrecheck(Some(ur), msg).None? && msg.initiator && msg.channel == "" && msg.hash == "" && msg.data.Some? ==>
            s == Stop(reg, Rejected("data must be empty", msg.id)))
      && (CallPrecheck(Some(ur), msg).None? && !msg.initiator && (msg.channel == "" || msg.hash == "" || msg.data.None?) ==>
            s == Stop(reg, Rejected("channel, hash or data is empty", msg.id)))
  {
  }

  /** A fresh offer: the new channel, holding the caller, is stored only when
      its id is absent; the caller gets the reply first; then a copy of the
      message with id 0, source the caller, the channel and the tag goes to
      every connection of the target in directory order; a target without
      connections yields NoSessionForUser with id 0 (webrtc.go:233-295). */
  lemma InitiatorOffer(svc: Services, reg: Registry, dir: Directory, c: ConnId, ur: UserId, msg: Envelope, o: Oracle,
                       cid: ChannelId, p: Option<Pipeline>)
    requires msg.subtype == WebRTCCall && msg.initiator && CallPrecheck(Some(ur), msg).None?
    requires msg.channel == "" && msg.hash == "" && msg.data.None?
    requires o.createRandom == RandomCreated(cid, p) && o.add.None? && !(p.Some? && o.marshalError.Some?)
    ensures var s := Process(svc, reg, dir, c, Some(ur), msg, o);
      var hash := svc.base64(Compute(svc.mac, msg.msgType, ur, msg.target, cid));
      var extra := if p.Some? then Some(Extra(ChannelExtra(None, p))) else None;
      var offer := msg.(source := ur, channel := cid, hash := hash, data := extra, id := 0);
      && s.channels == (if cid in reg then reg else reg[cid := Some(Channel(cid, "", map[ur := c], p))])
      && s.forwards == []
      && |s.sends| >= 1 && s.sends[0] == Delivery(c, Reply(msg.id, cid, hash, extra, CurrentVersion))
      && (msg.target in dir ==> s.result == Ok && s.sends[1..] == FanOut(dir[msg.target], Message(offer)))
      && (msg.target !in dir ==> s.result == NoSession(0) && |s.sends| == 1)
  {
    var s := Process(svc, reg, dir, c, Some(ur), msg, o);
    var hash := svc.base64(Compute(svc.mac, msg.msgType, ur, msg.target, cid));
    var extra := if p.Some? then Some(Extra(ChannelExtra(None, p))) else None;
    assert s == Offer(svc, SetIfAbsent(reg, cid, Join(Channel(cid, "", map[], p), ur, c)), dir, c, ur, msg, cid, extra);
  }

  /** The initiator's failures after validation: a channel that cannot be
      created, a membership conflict on the new channel (BadMessage with Add's
      text, nothing stored), and pipeline data that cannot be encoded (a plain
      error with the encoder's text, after the channel was stored)
      (webrtc.go:234-241, 246-258). */
  lemma InitiatorFailures(svc: Services, reg: Registry, dir: Directory, c: ConnId, ur: UserId, msg: Envelope, o: Oracle)
    requires msg.subtype == WebRTCCall && msg.initiator && CallPrecheck(Some(ur), msg).None?
    requires msg.channel == "" && msg.hash == "" && msg.data.None?
    ensures var s := Process(svc, reg, dir, c, Some(ur), msg, o);
      && (o.createRandom.RandomFailed? ==>
            s == Stop(reg, Err(PlainError("failed to create channel: " + o.createRandom.reason))))
      && (o.createRandom.RandomCreated? && o.add.Some? ==> s == Stop(reg, Rejected(o.add.value, msg.id)))
      && (o.createRandom.RandomCreated? && o.add.None? && o.createRandom.pipeline.Some? && o.marshalError.Some? ==>
            var ch := Channel(o.createRandom.id, "", map[ur := c], o.createRandom.pipeline);
            s == Stop(SetIfAbsent(reg, o.createRandom.id, ch),
                      Err(PlainError("failed to encode channel extra data: " + o.marshalError.value))))
  {
  }

  /** Either participant derives the offer's tag: every offer sent to the
      target carries, as its hash, the tag the target computes with itself as
      source and the caller as target, so the target's check accepts it
      (webrtc.go:49-67, 262-294). */
  lemma OfferTagVerifiesForTarget(svc: Services, reg: Registry, dir: Directory, c: ConnId, ur: UserId, msg: Envelope,
                                  o: Oracle, cid: ChannelId, p: Option<Pipeline>)
    requires msg.subtype == WebRTCCall && msg.initiator && CallPrecheck(Some(ur), msg).None?
    requires msg.channel == "" && msg.hash == "" && msg.data.None?
    requires o.createRandom == RandomCreated(cid, p) && o.add.None? && !(p.Some? && o.marshalError.Some?)
    ensures Check(svc.mac, Compute(svc.mac, msg.msgType, ur, msg.target, cid), msg.msgType, msg.target, ur, cid)
    ensures var s := Process(svc, reg, dir, c, Some(ur), msg, o);
      forall i :: 1 <= i < |s.sends| ==>
        && s.sends[i].payload.Message? && s.sends[i].payload.msg.channel == cid
        && s.sends[i].payload.msg.hash == svc.base64(Compute(svc.mac, msg.msgType, msg.target, ur, cid))
  {
    InitiatorOffer(svc, reg, dir, c, ur, msg, o, cid, p);
    ComputeSymmetric(svc.mac, msg.msgType, ur, msg.target, cid);
  }

  /** An offer to a user with no connection: the caller gets its reply and
      nothing else, and as onWebRTC hides NoSessionForUser, no error either. */
  lemma UnansweredOfferIsSilent(svc: Services, reg: Registry, dir: Directory, c: ConnId, ur: UserId, msg: Envelope,
                                o: Oracle, cid: ChannelId, p: Option<Pipeline>)
    requires msg.subtype == WebRTCCall && msg.initiator && CallPrecheck(Some(ur), msg).None?
    requires msg.channel == "" && msg.hash == "" && msg.data.None?
    requires o.createRandom == RandomCreated(cid, p) && o.add.None? && !(p.Some? && o.marshalError.Some?)
    requires msg.target !in dir
    ensures var s := Process(svc, reg, dir, c, Some(ur), msg, o);
      OnWebRTC(s.result) == Ok && |s.sends| == 1 && s.sends[0].to == c && s.sends[0].payload.Reply?
  {
    InitiatorOffer(svc, reg, dir, c, ur, msg, o, cid, p);
  }

  // ---------------------------------------------------------------------
  // Call, responder
  // ---------------------------------------------------------------------

  /** A response that reaches the channel: the channel id must name a
      registered channel (a nil record panics on the type assertion), the
      channel's own check must pass, and the data must decode (a JSON null
      leaves a nil pointer that is then dereferenced) (webrtc.go:303-321). */
  lemma ResponderValidation(svc: Services, reg: Registry, dir: Directory, c: ConnId, ur: UserId, msg: Envelope, o: Oracle)
    requires msg.subtype == WebRTCCall && !msg.initiator && CallPrecheck(Some(ur), msg).None?
    requires msg.channel != "" && msg.hash != "" && msg.data.Some?
    ensures var s := Process(svc, reg, dir, c, Some(ur), msg, o);
      && (msg.channel !in reg ==> s == Stop(reg, Rejected("channel not found", msg.id)))
      && (msg.channel in reg && reg[msg.channel].None? ==> NoEffect(s, reg) && s.result.Panic?)
      && (msg.channel in reg && reg[msg.channel].Some? && o.check.Some? ==> s == Stop(reg, Err(o.check.value)))
      && (msg.channel in reg && reg[msg.channel].Some? && o.check.None? && o.accept.Malformed? ==>
            s == Stop(reg, Err(PlainError(o.accept.text))))
      && (msg.channel in reg && reg[msg.channel].Some? && o.check.None? && o.accept.Null? ==>
            NoEffect(s, reg) && s.result.Panic?)
  {
  }

  /** What a response that passed those checks satisfies. */
  predicate Admitted(reg: Registry, ur: UserId, msg: Envelope, o: Oracle)
  {
    && msg.subtype == WebRTCCall && !msg.initiator && CallPrecheck(Some(ur), msg).None?
    && msg.channel != "" && msg.hash != "" && msg.data.Some?
    && msg.channel in reg && reg[msg.channel].Some? && o.check.None? && o.accept.Accept?
  }

  /** Group mode: a rejection is refused; an acceptance is re-tagged with the
      tag over (type, responder, target, channel) and goes, with source the
      responder and id 0, to the target's connection in the channel; the
      responder does not join the channel (webrtc.go:323-333, 378-387). */
  lemma GroupResponse(svc: Services, reg: Registry, dir: Directory, c: ConnId, ur: UserId, msg: Envelope, o: Oracle)
    requires Admitted(reg, ur, msg, o) && msg.group != ""
    ensures var s := Process(svc, reg, dir, c, Some(ur), msg, o);
      var ch := reg[msg.channel].value;
      var out := msg.(hash := svc.base64(Compute(svc.mac, msg.msgType, ur, msg.target, ch.id)), source := ur, id := 0);
      && (!o.accept.accept ==> s == Stop(reg, Rejected("accept required for group call", msg.id)))
      && (o.accept.accept && msg.target in ch.members ==>
            s == Step(reg, [Delivery(ch.members[msg.target], Message(out))], [], Ok))
      && (o.accept.accept && msg.target !in ch.members ==> s == Stop(reg, NoSession(0)))
  {
  }

  /** Busy suppression: a "reject_busy" rejection from a user with more than
      one connection succeeds without sending anything or changing any
      membership (webrtc.go:350-355). */
  lemma BusySuppressed(svc: Services, reg: Registry, dir: Directory, c: ConnId, ur: UserId, msg: Envelope, o: Oracle)
    requires Admitted(reg, ur, msg, o) && msg.group == ""
    requires o.accept == Accept(false, "reject_busy") && ur in dir && |dir[ur]| > 1
    ensures Process(svc, reg, dir, c, Some(ur), msg, o) == Stop(reg, Ok)
  {
  }

  /** Any other 1:1 response: an acceptance joins the responder to the
      channel; every other connection of the responder is told to stop
      ringing; then the message, with source the responder and id 0, goes to
      the target's connection in the channel, which must exist
      (webrtc.go:335-387). */
  lemma DirectResponse(svc: Services, reg: Registry, dir: Directory, c: ConnId, ur: UserId, msg: Envelope, o: Oracle)
    requires Admitted(reg, ur, msg, o) && msg.group == ""
    requires !(o.accept == Accept(false, "reject_busy") && ur in dir && |dir[ur]| > 1)
    requires o.accept.accept ==> o.add.None?
    ensures var s := Process(svc, reg, dir, c, Some(ur), msg, o);
      var ch := reg[msg.channel].value;
      var cleared := if ur in dir then FanOutExcept(dir[ur], c, Message(ClearedCall(msg.channel, msg.target))) else [];
      var answer := if msg.target in ch.members then [Delivery(ch.members[msg.target], Message(msg.(source := ur, id := 0)))] else [];
      && s.channels == (if o.accept.accept then reg[msg.channel := Some(Join(ch, ur, c))] else reg)
      && s.forwards == []
      && s.sends == cleared + answer
      && s.result == (if msg.target in ch.members then Ok else NoSession(0))
  {
    var ch := reg[msg.channel].value;
    assert msg.target != ur;
    assert (msg.target in Join(ch, ur, c).members) == (msg.target in ch.members);
  }

  /** A membership conflict on accepting a 1:1 call: when channel.Add fails,
      the answer is BadMessage with Add's text for the request, with no
      effect (webrtc.go:337-342). */
  lemma ResponderAddFailure(svc: Services, reg: Registry, dir: Directory, c: ConnId, ur: UserId, msg: Envelope, o: Oracle)
    requires Admitted(reg, ur, msg, o) && msg.group == ""
    requires o.accept.accept && o.add.Some?
    ensures Process(svc, reg, dir, c, Some(ur), msg, o) == Stop(reg, Rejected(o.add.value, msg.id))
  {
  }

  /** The "stop ringing" notices reach exactly the responder's other
      connections, each a cleared Call-initiator envelope on the channel with
      the target as source. */
  lemma ClearedReachesOtherSessions(conns: seq<ConnId>, c: ConnId, channel: ChannelId, target: UserId, k: ConnId)
    ensures Delivery(k, Message(ClearedCall(channel, target))) in FanOutExcept(conns, c, Message(ClearedCall(channel, target)))
            <==> k in conns && k != c
  {
  }

  // ---------------------------------------------------------------------
  // Hangup and Signal
  // ---------------------------------------------------------------------

  /** The Hangup and Signal checks, in source order; a nil record panics on
      the type assertion (webrtc.go:394-424). */
  lemma SignalValidation(svc: Services, reg: Registry, dir: Directory, c: ConnId, ur: UserId, msg: Envelope, o: Oracle)
    requires msg.subtype == WebRTCHangup || msg.subtype == WebRTCSignal
    ensures var s := Process(svc, reg, dir, c, Some(ur), msg, o);
      && (msg.state == "" ==> s == Stop(reg, Rejected("state is empty", msg.id)))
      && (msg.state != "" && msg.source != "" ==> s == Stop(reg, Rejected("source must be empty", msg.id)))
      && (msg.state != "" && msg.source == "" && (msg.channel == "" || msg.hash == "" || msg.data.None?) ==>
            s == Stop(reg, Rejected("channel hash or data is empty", msg.id)))
      && (SignalPrecheck(Some(ur), msg).None? && msg.channel !in reg ==> s == Stop(reg, Rejected("channel not found", msg.id)))
      && (SignalPrecheck(Some(ur), msg).None? && msg.channel in reg && reg[msg.channel].None? ==>
            NoEffect(s, reg) && s.result.Panic?)
      && (SignalPrecheck(Some(ur), msg).None? && msg.channel in reg && reg[msg.channel].Some? && o.check.Some? ==>
            s == Stop(reg, Err(o.check.value)))
  {
  }

  /** What a Hangup or Signal that passed those checks satisfies. */
  predicate Validated(reg: Registry, ur: UserId, msg: Envelope, o: Oracle)
  {
    && (msg.subtype == WebRTCHangup || msg.subtype == WebRTCSignal) && SignalPrecheck(Some(ur), msg).None?
    && msg.channel in reg && reg[msg.channel].Some? && o.check.None?
  }

  /** Group mode, or a target that has a connection in the channel. */
  predicate Resolved(ch: Channel, msg: Envelope)
  {
    (msg.group != "" && msg.target == msg.group) || (msg.target != "" && msg.target in ch.members)
  }

  /** A hangup always takes the sender out of the channel, touching nothing else. */
  lemma HangupLeaves(svc: Services, reg: Registry, dir: Directory, c: ConnId, ur: UserId, msg: Envelope, o: Oracle)
    requires Validated(reg, ur, msg, o) && msg.subtype == WebRTCHangup
    ensures var s := Process(svc, reg, dir, c, Some(ur), msg, o);
      && s.channels == reg[msg.channel := Some(Leave(reg[msg.channel].value, ur))]
      && ur !in s.channels[msg.channel].value.members
  {
  }

  /** A hangup with no in-channel target falls back to direct delivery: the
      message, with source the sender and id 0, goes to every connection of
      the target in the directory and Forward is not called; a target with no
      connections yields NoSessionForUser with the original request id
      (webrtc.go:442-466). */
  lemma HangupFallback(svc: Services, reg: Registry, dir: Directory, c: ConnId, ur: UserId, msg: Envelope, o: Oracle)
    requires Validated(reg, ur, msg, o) && msg.subtype == WebRTCHangup
    requires !Resolved(reg[msg.channel].value, msg)
    ensures var s := Process(svc, reg, dir, c, Some(ur), msg, o);
      && s.forwards == []
      && (msg.target in dir ==> s.result == Ok && s.sends == FanOut(dir[msg.target], Message(msg.(source := ur, id := 0))))
      && (msg.target !in dir ==> s.result == NoSession(msg.id) && s.sends == [])
  {
  }

  /** A resolved Hangup or Signal is handed to the channel's Forward, once,
      with the sender, the target, the target's in-channel connection (none in
      group mode) and the message as received; nothing is sent directly and
      Forward's answer is the result (webrtc.go:426-440, 469-471). */
  lemma ResolvedForwards(svc: Services, reg: Registry, dir: Directory, c: ConnId, ur: UserId, msg: Envelope, o: Oracle)
    requires Validated(reg, ur, msg, o) && Resolved(reg[msg.channel].value, msg)
    ensures var s := Process(svc, reg, dir, c, Some(ur), msg, o);
      var ch := reg[msg.channel].value;
      var groupMode := msg.group != "" && msg.target == msg.group;
      && s.sends == []
      && s.forwards == [ForwardCall(msg.channel, ur, msg.target, if groupMode then None else Some(ch.members[msg.target]), msg)]
      && s.result == (if o.forward.Some? then Err(o.forward.value) else Ok)
      && (msg.subtype == WebRTCSignal ==> s.channels == reg)
  {
  }

  /** An unresolved Signal, e.g. one with neither group mode nor a target,
      yields NoSessionForUser for the request, with no effect (webrtc.go:437-439, 472-474). */
  lemma UnresolvedSignal(svc: Services, reg: Registry, dir: Directory, c: ConnId, ur: UserId, msg: Envelope, o: Oracle)
    requires Validated(reg, ur, msg, o) && msg.subtype == WebRTCSignal
    requires !Resolved(reg[msg.channel].value, msg)
    ensures Process(svc, reg, dir, c, Some(ur), msg, o) == Stop(reg, NoSession(msg.id))
  {
  }

  // ---------------------------------------------------------------------
  // Whole calls
  // ---------------------------------------------------------------------

  /** An accepted call: A offers to B; B, on one of its connections,
      accepts on the new channel.  B joins the channel, and A's connection in
      the channel receives the acceptance with source B and id 0. */
  lemma AcceptedCall(svc: Services, reg: Registry, dir: Directory,
                     ca: ConnId, a: UserId, offer: Envelope, o1: Oracle, cid: ChannelId,
                     cb: ConnId, b: UserId, answer: Envelope, o2: Oracle)
    requires offer.subtype == WebRTCCall && offer.initiator && CallPrecheck(Some(a), offer).None?
    requires offer.channel == "" && offer.hash == "" && offer.data.None? && offer.target == b
    requires o1.createRandom == RandomCreated(cid, None) && o1.add.None? && cid !in reg
    requires answer.subtype == WebRTCCall && !answer.initiator && CallPrecheck(Some(b), answer).None?
    requires answer.target == a && answer.channel == cid && cid != "" && answer.hash != "" && answer.data.Some? && answer.group == ""
    requires o2.check.None? && o2.accept == Accept(true, "") && o2.add.None?
    ensures var s1 := Process(svc, reg, dir, ca, Some(a), offer, o1);
      var s2 := Process(svc, s1.channels, dir, cb, Some(b), answer, o2);
      && s2.result == Ok
      && s2.channels[cid] == Some(Channel(cid, "", map[a := ca, b := cb], None))
      && s2.sends[|s2.sends| - 1] == Delivery(ca, Message(answer.(source := b, id := 0)))
  {
    var s1 := Process(svc, reg, dir, ca, Some(a), offer, o1);
    InitiatorOffer(svc, reg, dir, ca, a, offer, o1, cid, None);
    assert s1.channels[cid] == Some(Channel(cid, "", map[a := ca], None));
    assert Admitted(s1.channels, b, answer, o2);
    DirectResponse(svc, s1.channels, dir, cb, b, answer, o2);
  }

  /** Hangup before answer: A offers to B, B does not answer, A hangs up on
      the channel.  A leaves the channel, Forward is not called, and every
      connection of B receives the hangup with source A and id 0. */
  lemma HangupBeforeAnswer(svc: Services, reg: Registry, dir: Directory,
                           ca: ConnId, a: UserId, offer: Envelope, o1: Oracle, cid: ChannelId,
                           hangup: Envelope, o2: Oracle)
    requires offer.subtype == WebRTCCall && offer.initiator && CallPrecheck(Some(a), offer).None?
    requires offer.channel == "" && offer.hash == "" && offer.data.None?
    requires o1.createRandom == RandomCreated(cid, None) && o1.add.None? && cid !in reg
    requires hangup.subtype == WebRTCHangup && SignalPrecheck(Some(a), hangup).None?
    requires hangup.channel == cid && hangup.target == offer.target && hangup.group == "" && o2.check.None?
    requires offer.target in dir
    ensures var s1 := Process(svc, reg, dir, ca, Some(a), offer, o1);
      var s2 := Process(svc, s1.channels, dir, ca, Some(a), hangup, o2);
      && s2.result == Ok
      && s2.channels[cid] == Some(Channel(cid, "", map[], None))
      && s2.forwards == []
      && s2.sends == FanOut(dir[offer.target], Message(hangup.(source := a, id := 0)))
  {
    var s1 := Process(svc, reg, dir, ca, Some(a), offer, o1);
    InitiatorOffer(svc, reg, dir, ca, a, offer, o1, cid, None);
    assert s1.channels[cid] == Some(Channel(cid, "", map[a := ca], None));
    assert Validated(s1.channels, a, hangup, o2);
    assert !Resolved(s1.channels[cid].value, hangup);
    HangupFallback(svc, s1.channels, dir, ca, a, hangup, o2);
    assert map[a := ca] - {a} == map[];
  }
}
