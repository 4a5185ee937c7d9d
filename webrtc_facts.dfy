/** Properties of the signalling engine, stated over the functions of module
    WebRTC (and so, through the ensures of class Rtm.Manager, over the
    imperative handler). */
module WebRTCFacts {
  import opened Wrappers
  import opened ChannelHash
  import opened Api
  import opened WebRTC

  /** The four subtypes the dispatcher handles. */
  predicate Handled(st: Subtype)
  {
    st == WebRTCGroup || st == WebRTCCall || st == WebRTCHangup || st == WebRTCSignal
  }

  /** A BadMessage error correlated to request `ref`. */
  predicate IsBadMessage(r: Outcome, ref: nat)
  {
    r.Err? && r.error.RtmError? && r.error.code == BadMessage && r.error.ref == ref
  }

  /** Nothing sent, nothing forwarded, registry as it was. */
  predicate NoEffect(s: Step, reg: Registry)
  {
    s.channels == reg && s.sends == [] && s.forwards == []
  }

  /** Every non-nil record is stored under its own id. */
  predicate WellFormed(reg: Registry)
  {
    forall id :: id in reg && reg[id].Some? ==> reg[id].value.id == id
  }

  /** The one registry entry a message may change. */
  function Touched(svc: Services, msg: Envelope, o: Oracle): ChannelId
  {
    if msg.subtype == WebRTCGroup && svc.groupChannelId(msg.group).NamedOk? then svc.groupChannelId(msg.group).id
    else if msg.subtype == WebRTCCall && msg.initiator && o.createRandom.RandomCreated? then o.createRandom.id
    else msg.channel
  }

  /** The members of a channel other than `user`. */
  function Others(ch: Channel, user: UserId): map<UserId, ConnId>
  {
    ch.members - {user}
  }

  // ---------------------------------------------------------------------
  // Checks common to every subtype
  // ---------------------------------------------------------------------

  /** The version check compares an unsigned version with a minimum of 0, so
      it never rejects anything (webrtc.go:36, 87-89). */
  lemma VersionCheckVacuous(msg: Envelope)
    ensures !(msg.version < MinimalVersion)
  {
  }

  /** A connection without a user is refused for every subtype, before
      anything else is looked at and without any effect. */
  lemma UnboundRejected(svc: Services, reg: Registry, dir: Directory, c: ConnId, msg: Envelope, o: Oracle)
    requires Handled(msg.subtype)
    ensures Process(svc, reg, dir, c, None, msg, o) == Stop(reg, Rejected("connection has no user", msg.id))
  {
  }

  /** The server-only `source` field set, or the client nonce `state` empty:
      every handled subtype answers BadMessage for the request, with no effect. */
  lemma InboundFieldsEnforced(svc: Services, reg: Registry, dir: Directory, c: ConnId, bound: Option<UserId>,
                              msg: Envelope, o: Oracle)
    requires Handled(msg.subtype)
    requires msg.source != "" || msg.state == ""
    ensures var s := Process(svc, reg, dir, c, bound, msg, o);
      NoEffect(s, reg) && IsBadMessage(s.result, msg.id)
  {
  }

  /** Any other subtype, the reply-only Channel subtype included, is refused. */
  lemma UnknownSubtypeRejected(svc: Services, reg: Registry, dir: Directory, c: ConnId, bound: Option<UserId>,
                               msg: Envelope, o: Oracle)
    requires !Handled(msg.subtype)
    ensures Process(svc, reg, dir, c, bound, msg, o) == Stop(reg, Rejected("unknown subtype", msg.id))
  {
  }

  // ---------------------------------------------------------------------
  // Registry and membership invariants
  // ---------------------------------------------------------------------

  /** What one message may do to the registry, for sender `ur`: change at most
      entry `t`; and if entry `t` is a channel afterwards, either it was that
      channel before, with the same id and the same members other than `ur`,
      or it is new, stored under its own id, with no member but `ur`. */
  predicate Confined(reg: Registry, reg': Registry, t: ChannelId, ur: UserId)
  {
    && reg' - {t} == reg - {t}
    && (t in reg' && reg'[t].Some? ==>
          || (t in reg && reg[t].Some? && reg'[t].value.id == reg[t].value.id
              && Others(reg'[t].value, ur) == Others(reg[t].value, ur))
          || (!(t in reg && reg[t].Some?) && reg'[t].value.id == t && Others(reg'[t].value, ur) == map[]))
  }

  lemma GroupConfined(svc: Services, reg: Registry, c: ConnId, ur: UserId, msg: Envelope, o: Oracle)
    requires msg.subtype == WebRTCGroup
    ensures Confined(reg, ProcessGroup(svc, reg, c, Some(ur), msg, o).channels, Touched(svc, msg, o), ur)
  {
    var t := Touched(svc, msg, o);
    if GroupPrecheck(Some(ur), msg).None? && svc.groupChannelId(msg.group).NamedOk? {
      var up := GetOrCreate(reg, t, msg.group, o.createKnown);
      if up.1.Some? && o.add.None? {
        var ch := Join(up.1.value, ur, c);
        assert up.0[t := Some(ch)] - {t} == reg - {t};
      }
    }
  }

  lemma InitiatorConfined(svc: Services, reg: Registry, dir: Directory, c: ConnId, ur: UserId, msg: Envelope, o: Oracle)
    requires msg.subtype == WebRTCCall && msg.initiator
    ensures Confined(reg, ProcessCallInitiator(svc, reg, dir, c, ur, msg, o).channels, Touched(svc, msg, o), ur)
  {
  }

  lemma RespondConfined(svc: Services, reg: Registry, dir: Directory, c: ConnId, ur: UserId, msg: Envelope,
                        accept: bool, reason: string, addError: Option<string>)
    requires msg.channel in reg && reg[msg.channel].Some?
    ensures var ch := reg[msg.channel].value;
      Confined(reg, Respond(svc, reg, dir, c, ur, msg, ch, accept, reason, addError).channels, msg.channel, ur)
  {
    var ch := reg[msg.channel].value;
    var s := Respond(svc, reg, dir, c, ur, msg, ch, accept, reason, addError);
    if s.channels != reg {
      assert s.channels == reg[msg.channel := Some(Join(ch, ur, c))];
    }
  }

  lemma ResponderConfined(svc: Services, reg: Registry, dir: Directory, c: ConnId, ur: UserId, msg: Envelope, o: Oracle)
    requires msg.subtype == WebRTCCall && !msg.initiator
    ensures Confined(reg, ProcessCallResponder(svc, reg, dir, c, ur, msg, o).channels, Touched(svc, msg, o), ur)
  {
    if msg.channel in reg && reg[msg.channel].Some? && o.accept.Accept? {
      RespondConfined(svc, reg, dir, c, ur, msg, o.accept.accept, o.accept.reason, o.add);
    }
  }

  lemma SignalConfined(reg: Registry, dir: Directory, ur: UserId, msg: Envelope, o: Oracle, t: ChannelId)
    requires t == msg.channel
    ensures Confined(reg, ProcessSignal(reg, dir, Some(ur), msg, o).channels, t, ur)
  {
  }

  /** Every message stays within Confined. */
  lemma ProcessConfined(svc: Services, reg: Registry, dir: Directory, c: ConnId, ur: UserId, msg: Envelope, o: Oracle)
    ensures Confined(reg, Process(svc, reg, dir, c, Some(ur), msg, o).channels, Touched(svc, msg, o), ur)
  {
    match msg.subtype
    case WebRTCGroup => GroupConfined(svc, reg, c, ur, msg, o);
    case WebRTCCall =>
      if CallPrecheck(Some(ur), msg).None? {
        if msg.initiator {
          InitiatorConfined(svc, reg, dir, c, ur, msg, o);
        } else {
          ResponderConfined(svc, reg, dir, c, ur, msg, o);
        }
      }
    case WebRTCHangup => SignalConfined(reg, dir, ur, msg, o, Touched(svc, msg, o));
    case WebRTCSignal => SignalConfined(reg, dir, ur, msg, o, Touched(svc, msg, o));
    case _ =>
  }

  /** Every record stays under its own id: group channels are created under
      the derived id and call channels stored under their own id. */
  lemma ProcessPreservesWellFormed(svc: Services, reg: Registry, dir: Directory, c: ConnId, bound: Option<UserId>,
                                   msg: Envelope, o: Oracle)
    requires WellFormed(reg)
    ensures WellFormed(Process(svc, reg, dir, c, bound, msg, o).channels)
  {
    if bound.Some? {
      ProcessConfined(svc, reg, dir, c, bound.value, msg, o);
      var s := Process(svc, reg, dir, c, bound, msg, o);
      var t := Touched(svc, msg, o);
      forall id | id in s.channels && s.channels[id].Some? ensures s.channels[id].value.id == id {
        if id != t {
          assert id in s.channels - {t};
        }
      }
    }
  }

  /** One message changes at most one registry entry. */
  lemma ProcessTouchesOneChannel(svc: Services, reg: Registry, dir: Directory, c: ConnId, bound: Option<UserId>,
                                 msg: Envelope, o: Oracle)
    ensures var t := Touched(svc, msg, o);
      Process(svc, reg, dir, c, bound, msg, o).channels - {t} == reg - {t}
  {
    if bound.Some? {
      ProcessConfined(svc, reg, dir, c, bound.value, msg, o);
    }
  }

  /** A message changes only its sender's own membership: in every channel the
      other members and their connections stay as they were, and a channel
      that is new holds no one but the sender. */
  lemma SenderOnlyChangesOwnMembership(svc: Services, reg: Registry, dir: Directory, c: ConnId, ur: UserId,
                                       msg: Envelope, o: Oracle)
    ensures var s := Process(svc, reg, dir, c, Some(ur), msg, o);
      forall id :: id in s.channels && s.channels[id].Some? ==>
        Others(s.channels[id].value, ur) == (if id in reg && reg[id].Some? then Others(reg[id].value, ur) else map[])
  {
    ProcessConfined(svc, reg, dir, c, ur, msg, o);
    var s := Process(svc, reg, dir, c, Some(ur), msg, o);
    var t := Touched(svc, msg, o);
    forall id | id in s.channels && s.channels[id].Some?
      ensures Others(s.channels[id].value, ur) == (if id in reg && reg[id].Some? then Others(reg[id].value, ur) else map[])
    {
      if id != t {
        assert id in s.channels - {t};
        assert id in reg - {t};
      }
    }
  }
}
