# WebRTC signalling engine of kwmserver, in Dafny

This project models `signaling/rtm/webrtc.go` of kwmserver. That file is the
part of the real-time messaging manager that handles WebRTC call set-up. Its
three parts are modelled:

- **The channel authentication tag** (`computeWebRTCChannelHash`,
  `checkWebRTCChannelHash`), in module `ChannelHash`. The tag is an HMAC over
  the message type, the two participant ids in ascending order, and the
  channel id. The keyed HMAC is a function parameter `mac`. It is applied to
  exactly the bytes the source writes, one after the other. Go's `<` on
  strings is the lexicographic order `Less`.
- **`processWebRTCMessage`**, in two forms. Module `WebRTC` gives it as a
  function `Process` of the manager state. The function returns the new
  channel registry, the sends in order, the `Forward` calls, and the result.
  Class `Rtm.Manager` is the imperative handler. It keeps the registry, the
  connection directory, an outbox of sends and a log of `Forward` calls as
  fields. There is one method per branch, and their loops send to connections
  one by one. Each method is proved to have exactly the effect of the
  matching function. Modules `WebRTCFacts` and `WebRTCFlows` prove what the
  branches promise about those functions.
- **`onWebRTC`**, the error policy: the function `WebRTC.OnWebRTC` and the
  method `Rtm.Manager.HandleWebRTC`.

The collaborators that webrtc.go calls but does not define are model inputs:

- `Services` holds the process-wide deterministic ones: the HMAC under the
  process key, base64, and the derivation of group channel ids.
- `Oracle` holds what the others answer for one message:
  - `CreateKnownChannel` and `CreateRandomChannel`;
  - `channel.Add` failure;
  - `channel.checkWebRTCMessage`;
  - the JSON decoding of the accept data;
  - a JSON encoding failure;
  - `channel.Forward`'s result.

A failed group-channel construction leaves a nil record in the registry, as
the source's `Upsert` callback does. A later response or hangup that names
that channel id reaches the type assertion on a nil record. The model says
`Panic` there. A responder whose data is the JSON literal `null` dereferences
a nil pointer, which is also `Panic`.

Notes on how the code behaves, which the model reproduces:

- The tag is keyed on the envelope's `type` field (webrtc.go:159, 262, 331),
  not on its subtype.
- The validations are not one common pre-check. Each branch runs its own, in
  its own order. An unknown subtype is refused without a binding check.
- The reply to a Group or Call-initiator message is a `RTMTypeWebRTCReply`,
  which carries no `source` field.
- The version check can never fire: the version is unsigned and the minimum
  is 0 (`VersionCheckVacuous`).
- Busy suppression also needs the responder's directory lookup to succeed.
- A failed group-channel construction returns a plain error. It is not an
  RTM error.
- The tag shows tampering only for the written byte string, not for the
  tuple. With a collision-free MAC, the tag pins down only the whole string
  type, then lower id, then higher id, then channel (`TagBindsWrittenBytes`).
  It pins down each single part only when the other parts are held fixed
  (`TypeBound`, `ChannelBound`, `ParticipantsBound`). No separator is
  written between the parts, so two tuples can get the same tag under every
  key:
  - the pairs ("a", "bc") and ("ab", "c") on one channel
    (`BoundaryCollision`);
  - the pair ("a", "b") on channel "cd" and the pair ("a", "bc") on
    channel "d" (`ChannelBoundaryCollision`).

## Model

| member | source | states |
|---|---|---|
| ChannelHash.Less | signaling/rtm/webrtc.go:52 | no contract; defines Go's `<` on strings as the lexicographic order; its properties are stated in LessAsymmetric and LessTotal |
| ChannelHash.Compute | signaling/rtm/webrtc.go:49-63 | no contract; defines the tag as the MAC of type, lower id, higher id and channel, written one after the other; its properties are stated in ComputeSymmetric, TagBindsWrittenBytes and the Bound and Collision lemmas |
| ChannelHash.Check | signaling/rtm/webrtc.go:65-67 | no contract; defines the check as equality of the hash with the recomputed tag; its properties are stated in CheckExactly |
| ChannelHash.LessAsymmetric | signaling/rtm/webrtc.go:52 | Go's string `<` never holds in both directions |
| ChannelHash.LessTotal | signaling/rtm/webrtc.go:52-58 | two strings are equal or one is `<` the other, so the else-branch covers `source == target` with the same bytes |
| ChannelHash.ComputeSymmetric | signaling/rtm/webrtc.go:49-63 | the tag is the same with source and target swapped |
| ChannelHash.CheckExactly | signaling/rtm/webrtc.go:65-67 | the check holds exactly when the hash equals the tag, with the participants in either order, so it is symmetric too |
| ChannelHash.TagBindsWrittenBytes | signaling/rtm/webrtc.go:49-67 | under a collision-free MAC, a tag verifies for another tuple exactly when that tuple writes the same bytes |
| ChannelHash.ChannelBound | signaling/rtm/webrtc.go:59 | under a collision-free MAC, a tag made for one channel verifies for another channel only if the two are equal |
| ChannelHash.TypeBound | signaling/rtm/webrtc.go:51 | under a collision-free MAC, a tag made for one message type verifies for another type only if the two are equal |
| ChannelHash.ParticipantsBound | signaling/rtm/webrtc.go:52-58 | under a collision-free MAC, a tag verifies for another pair exactly when both pairs concatenate, in ascending order, to the same string |
| ChannelHash.BoundaryCollision | signaling/rtm/webrtc.go:51-59 | for every MAC, the pair ("a","bc") and the pair ("ab","c") get the same tag |
| ChannelHash.ChannelBoundaryCollision | signaling/rtm/webrtc.go:53-59 | for every MAC, the pair ("a","b") on channel "cd" and the pair ("a","bc") on channel "d" get the same tag, because no separator follows the higher id |
| WebRTC.GetOrCreate | signaling/rtm/webrtc.go:123-141 | an existing non-nil record is kept and returned as-is; otherwise the new channel, or nil on failure, is stored and returned; no other entry changes |
| WebRTC.SetIfAbsent | signaling/rtm/webrtc.go:242-246 | the channel is stored only when its id is absent; no other entry changes |
| WebRTC.FanOut | signaling/rtm/webrtc.go:293-295 | one send per connection, in directory order, each carrying the same payload |
| WebRTC.FanOutExcept | signaling/rtm/webrtc.go:368-373 | sends go to exactly the listed connections other than the current one, all with the same payload |
| WebRTC.Except | signaling/rtm/webrtc.go:368-371 | the connections kept are exactly the listed ones other than the current one |
| WebRTC.FanOutExceptIsFanOut | signaling/rtm/webrtc.go:368-373 | the skipping loop's sends are the plain fan-out to the other connections: one send per remaining list entry, in order |
| WebRTC.Join | signaling/rtm/webrtc.go:152 | no contract; defines a successful channel.Add as setting the user's one connection in the channel (also lines 238 and 339); its effect is stated in GroupJoin, InitiatorOffer and DirectResponse |
| WebRTC.Leave | signaling/rtm/webrtc.go:444 | no contract; defines channel.Remove; its effect is stated in HangupLeaves |
| WebRTC.ClearedCall | signaling/rtm/webrtc.go:358-367 | no contract; defines the Call-initiator envelope that tells the responder's other connections to stop ringing; stated in DirectResponse and ClearedReachesOtherSessions |
| WebRTC.GroupReply | signaling/rtm/webrtc.go:166-196 | no contract; defines the reply to a group join, carrying the member set and pipeline; stated in GroupJoin and FirstGroupJoin |
| WebRTC.Process | signaling/rtm/webrtc.go:86-481 | no contract; defines processWebRTCMessage as the version check then dispatch on the subtype; its properties are stated in the WebRTCFacts and WebRTCFlows lemmas, and Rtm.Manager.ProcessWebRTCMessage is proved to do exactly this |
| WebRTC.ProcessGroup | signaling/rtm/webrtc.go:92-196 | no contract; defines the Group branch; stated in GroupValidation, GroupIdFailure, GroupCreationFailure, GroupAddFailure, GroupEncodingFailure, GroupJoinSucceeds and GroupJoin |
| WebRTC.ProcessCallInitiator | signaling/rtm/webrtc.go:224-260 | no contract; defines the initiator half up to the hash; stated in CallValidation, InitiatorFailures and InitiatorOffer |
| WebRTC.Offer | signaling/rtm/webrtc.go:261-295 | no contract; defines the reply to self and the offer to the target; stated in InitiatorOffer |
| WebRTC.ProcessCallResponder | signaling/rtm/webrtc.go:297-321 | no contract; defines the responder's checks against the channel; stated in CallValidation and ResponderValidation |
| WebRTC.Respond | signaling/rtm/webrtc.go:323-387 | no contract; defines the responder's decision; stated in GroupResponse, BusySuppressed, ResponderAddFailure and DirectResponse |
| WebRTC.Answer | signaling/rtm/webrtc.go:378-387 | no contract; defines the delivery to the target's connection in the channel, else NoSessionForUser; stated in GroupResponse and DirectResponse |
| WebRTC.ProcessSignal | signaling/rtm/webrtc.go:390-474 | no contract; defines the Hangup and Signal branch; stated in SignalValidation, HangupLeaves, HangupFallback, ResolvedForwards and UnresolvedSignal |
| WebRTC.OnWebRTC | signaling/rtm/webrtc.go:69-84 | a NoSessionForUser error becomes success; any other result passes through unchanged, including other RTM codes, plain errors and success; the result is never NoSessionForUser |
| WebRTCFacts.VersionCheckVacuous | signaling/rtm/webrtc.go:87-89 | an unsigned version is never below the minimum of 0, so the check never rejects |
| WebRTCFacts.UnboundRejected | signaling/rtm/webrtc.go:95-98 | for every handled subtype, a connection without a user gets BadMessage "connection has no user" for the request, with no effect |
| WebRTCFacts.InboundFieldsEnforced | signaling/rtm/webrtc.go:108-406 | for every handled subtype, a non-empty source or an empty state gives BadMessage for the request, with no effect: the Group checks at lines 108-115, the Call checks at 213-220 and the Hangup/Signal checks at 399-406 |
| WebRTCFacts.UnknownSubtypeRejected | signaling/rtm/webrtc.go:476-477 | any other subtype gives BadMessage "unknown subtype", with no effect |
| WebRTCFacts.ProcessPreservesWellFormed | signaling/rtm/webrtc.go:117-147 | if every channel record is stored under its own id before a message, the same holds after it |
| WebRTCFacts.ProcessTouchesOneChannel | signaling/rtm/webrtc.go:123-147 | a message changes at most one registry entry: the group's derived id, the new random id, or the named channel |
| WebRTCFacts.SenderOnlyChangesOwnMembership | signaling/rtm/webrtc.go:152-155 | in every channel, only the sender's own membership can change (by Add or Remove); a new channel holds no one but the sender |
| WebRTCFlows.GroupValidation | signaling/rtm/webrtc.go:95-115 | the five Group checks run in source order; each gives BadMessage with its own text and the request id, with no registry change and no send |
| WebRTCFlows.GroupJoin | signaling/rtm/webrtc.go:117-196 | on success an existing channel is kept and joined, or else the new one is created; the sender joins with this connection; exactly one reply goes, to this connection only, with the request id, the channel id, the tag over (type, sender, group, channel), the member list and pipeline, and the current version |
| WebRTCFlows.GroupCreationFailure | signaling/rtm/webrtc.go:123-147 | a failed construction leaves a nil record under the group's id and returns a plain error, with no send |
| WebRTCFlows.GroupIdFailure | signaling/rtm/webrtc.go:118-121 | a group id that cannot be derived gives BadMessage with the derivation's text for the request, with no effect |
| WebRTCFlows.GroupAddFailure | signaling/rtm/webrtc.go:152-155 | a membership conflict gives BadMessage with Add's text for the request, with no send; the registry keeps what the get-or-create stored |
| WebRTCFlows.GroupEncodingFailure | signaling/rtm/webrtc.go:180-183 | an encoding failure returns a plain error with the encoder's text, with no send; the sender has already joined the channel |
| WebRTCFlows.GroupJoinSucceeds | signaling/rtm/webrtc.go:117-196 | a validated Group message with a derivable id succeeds exactly when a channel is found or built, Add accepts and the data encodes |
| WebRTCFlows.GroupConvergence | signaling/rtm/webrtc.go:118-124 | two joins of the same group get the same channel id, and afterwards the channel holds both joiners |
| WebRTCFlows.FirstGroupJoin | signaling/rtm/webrtc.go:117-196 | the first join of a group succeeds: the reply names the derived channel and the sender's tag, and the sender is the only member |
| WebRTCFlows.CallValidation | signaling/rtm/webrtc.go:199-231 | the Call checks run in source order, each a BadMessage with its own text for the request and no effect: empty target, target same as source, empty state, non-empty source; then, for an offer, a channel or hash and then data present; for a response, a channel, hash or data missing |
| WebRTCFlows.InitiatorOffer | signaling/rtm/webrtc.go:233-295 | the new channel, holding the caller, is stored only if its id is absent; the reply to self comes first; then a copy with id 0, source the caller, the channel and the tag goes to every connection of the target in directory order; a target without connections gives NoSessionForUser with id 0 |
| WebRTCFlows.InitiatorFailures | signaling/rtm/webrtc.go:234-258 | a channel that cannot be created gives a plain error with its reason; a membership conflict gives BadMessage with Add's text and stores nothing; pipeline data that cannot be encoded gives a plain error with the encoder's text after the channel was stored |
| WebRTCFlows.OfferTagVerifiesForTarget | signaling/rtm/webrtc.go:262-294 | every offer sent to the target carries the new channel and, as its hash, the tag the target computes with itself as source and the caller as target, so the target's check accepts it |
| WebRTCFlows.UnansweredOfferIsSilent | signaling/rtm/webrtc.go:288-292 | an offer to an offline user leaves the caller with its reply only, and after onWebRTC with no error |
| WebRTCFlows.ResponderValidation | signaling/rtm/webrtc.go:303-321 | an unknown channel gives BadMessage; a nil record panics; the channel's check error and a decoding error pass through; JSON null panics |
| WebRTCFlows.GroupResponse | signaling/rtm/webrtc.go:323-333 | in group mode a rejection gives BadMessage; an acceptance is re-tagged over (type, responder, target, channel) and goes with id 0 to the target's connection in the channel, else NoSessionForUser; the responder does not join |
| WebRTCFlows.BusySuppressed | signaling/rtm/webrtc.go:350-355 | a "reject_busy" rejection from a user with more than one connection succeeds with no send and no membership change |
| WebRTCFlows.DirectResponse | signaling/rtm/webrtc.go:335-387 | an acceptance adds the responder to the channel; the responder's other connections get the cleared envelope; the message with source the responder and id 0 goes to the target's connection in the channel, else NoSessionForUser with id 0 |
| WebRTCFlows.ResponderAddFailure | signaling/rtm/webrtc.go:337-342 | a membership conflict when accepting a 1:1 call gives BadMessage with Add's text for the request, with no effect |
| WebRTCFlows.ClearedReachesOtherSessions | signaling/rtm/webrtc.go:357-373 | a connection gets the cleared envelope if and only if it is one of the responder's connections other than the current one |
| WebRTCFlows.SignalValidation | signaling/rtm/webrtc.go:394-424 | the Hangup/Signal checks run in source order, each with its own BadMessage, then channel lookup, where a nil record panics with no effect, then the channel's check |
| WebRTCFlows.HangupLeaves | signaling/rtm/webrtc.go:442-444 | a validated hangup removes the sender from the channel and changes nothing else |
| WebRTCFlows.HangupFallback | signaling/rtm/webrtc.go:445-466 | with no in-channel target, the hangup with source the sender and id 0 goes to every connection of the target in the directory, and Forward is not called; with no connections the result is NoSessionForUser with the original id |
| WebRTCFlows.ResolvedForwards | signaling/rtm/webrtc.go:426-471 | in group mode, or with an in-channel target, Forward is called once with the sender, the target, that connection (none in group mode) and the message, and its answer is the result |
| WebRTCFlows.UnresolvedSignal | signaling/rtm/webrtc.go:472-474 | a Signal with neither group mode nor an in-channel target gives NoSessionForUser for the request, with no effect |
| WebRTCFlows.AcceptedCall | signaling/rtm/webrtc.go:224-387 | after A offers to B and B accepts, B is in the channel and A's connection gets the acceptance with source B and id 0 |
| WebRTCFlows.HangupBeforeAnswer | signaling/rtm/webrtc.go:224-466 | after A offers to B and A hangs up unanswered, A has left the channel, Forward is not called, and every connection of B gets the hangup with source A |
| Rtm.Manager.constructor | signaling/rtm/webrtc.go:69 | the state the handlers of webrtc.go work on (the Manager type itself is defined outside webrtc.go): the given services and directory, no channels, and nothing sent or forwarded |
| Rtm.Manager.LookupConnectionsByUserID | signaling/rtm/webrtc.go:289-292 | found exactly when the user has a directory entry, and then returns that entry's connections |
| Rtm.Manager.Send | signaling/rtm/webrtc.go:294 | one connection.Send appends exactly that delivery to the outbox |
| Rtm.Manager.SendToAll | signaling/rtm/webrtc.go:293-295 | the loop appends FanOut of the connections to the outbox |
| Rtm.Manager.SendToOthers | signaling/rtm/webrtc.go:368-373 | the loop appends FanOutExcept of the connections to the outbox |
| Rtm.Manager.Upsert | signaling/rtm/webrtc.go:123-141 | the registry and the returned record are exactly GetOrCreate's |
| Rtm.Manager.HandleGroup | signaling/rtm/webrtc.go:92-196 | the registry, the sends and the result are exactly ProcessGroup's |
| Rtm.Manager.HandleCallInitiator | signaling/rtm/webrtc.go:224-295 | the registry, the sends and the result are exactly ProcessCallInitiator's |
| Rtm.Manager.SendOffer | signaling/rtm/webrtc.go:261-295 | the sends and the result are exactly Offer's |
| Rtm.Manager.HandleCallResponder | signaling/rtm/webrtc.go:297-388 | the registry, the sends and the result are exactly ProcessCallResponder's |
| Rtm.Manager.HandleDecision | signaling/rtm/webrtc.go:323-387 | the registry, the sends and the result are exactly Respond's |
| Rtm.Manager.HandleSignal | signaling/rtm/webrtc.go:390-474 | the registry, the sends, the Forward calls and the result are exactly ProcessSignal's |
| Rtm.Manager.ProcessWebRTCMessage | signaling/rtm/webrtc.go:86-481 | the registry, the sends, the Forward calls and the result are exactly Process's; the directory is unchanged |
| Rtm.Manager.HandleWebRTC | signaling/rtm/webrtc.go:69-84 | the effects are Process's, and the result is OnWebRTC of Process's result |

## Left out

- HMAC-SHA256 and the random 32-byte process key (webrtc.go:43-47, 50-61) are a foreign crypto library. The keyed MAC is the parameter `mac`. The tamper-evidence lemmas assume it is collision-free and say so.
- Base64 encoding of the tag is the parameter `base64`.
- JSON encoding of the channel extra data is left out. The data is kept as the value `ChannelExtra`, and an encoding failure is the oracle value `marshalError`, which holds the encoder's error text. JSON decoding of the accept data is the oracle value `Decoded`.
- `CreateNamedGroupChannelID` is the deterministic function `groupChannelId`. `CreateKnownChannel` and `CreateRandomChannel` are oracle results. That a random id is unguessable is not modelled: an id clash is handled, as the source does, by `SetIfAbsent`.
- The channel methods (`Add`, `Remove`, `Get`, `Connections`, `Pipeline`, `checkWebRTCMessage`, `Forward`) are defined outside webrtc.go and are not part of this model:
  - membership is a map from user to connection;
  - `Add`'s failure and `checkWebRTCMessage`'s answer are oracle results;
  - `Forward` is a recorded call whose answer is an oracle result, and its own fan-out is not modelled.
- The group channel callbacks `onGroupReplace` and `onAfterGroupAddOrRemove` are wired in at webrtc.go:130-131 but not modelled.
- The member list from `Connections()` is a set, because its order is not defined in this file.
- Channels are values in the registry, not shared objects. When `SetIfAbsent` finds the id taken, the caller was added to a channel object that nothing else reaches; the model drops that object.
- The handler's in-place updates of `msg` are made on a local copy, so the caller's view of the updated envelope is not modelled. A send records the envelope as it is at that moment.
- The `ur != nil` test at webrtc.go:345 always holds for a bound connection, so it is not a branch of the model.
- Concurrency is left out: the atomicity of `Upsert` under racing callers, and the fire-and-forget transport behind `Send`. The model is sequential, and `Send` appends to an outbox.
- `time.Now()` in channel records and all logging are left out.
- Strings are sequences of characters, compared by code point, which gives the same order as Go's byte comparison of UTF-8.
- The value "webrtc" of the type constant that generated envelopes carry is assumed. The api package that defines it is not part of this model.
