/** The channel authentication tag of signaling/rtm/webrtc.go
    (computeWebRTCChannelHash and checkWebRTCChannelHash).

    The tag is HMAC-SHA256, under a random key drawn once per process, over the
    bytes of the message type, the two participant ids in ascending order, and
    the channel id, written one after the other.  The keyed MAC itself is a
    parameter `mac`: nothing is assumed about it beyond being a function, except
    in the lemmas that say what an injective (collision-free) MAC buys. */
module ChannelHash {

  /** Raw HMAC output bytes. */
  type Tag = seq<bv8>

  /** HMAC-SHA256 under the process key, applied to everything written into it. */
  type Mac = string -> Tag

  /** Go's `<` on strings: lexicographic comparison.  Go compares the UTF-8
      bytes; UTF-8 preserves code-point order, so comparing characters gives
      the same answer. */
  predicate Less(a: string, b: string)
    decreases |a|
  {
    if a == [] then b != []
    else if b == [] then false
    else if a[0] == b[0] then Less(a[1..], b[1..])
    else a[0] < b[0]
  }

  lemma {:induction false} LessAsymmetric(a: string, b: string)
    ensures !(Less(a, b) && Less(b, a))
    decreases |a|
  {
    if a != [] && b != [] && a[0] == b[0] {
      LessAsymmetric(a[1..], b[1..]);
    }
  }

  lemma {:induction false} LessTotal(a: string, b: string)
    ensures a == b || Less(a, b) || Less(b, a)
    decreases |a|
  {
    if a != [] && b != [] && a[0] == b[0] {
      LessTotal(a[1..], b[1..]);
      assert a == [a[0]] + a[1..];
      assert b == [b[0]] + b[1..];
    }
  }

  /** The two participants in the order the source writes them: the smaller first. */
  function Ordered(source: string, target: string): string
  {
    if Less(source, target) then source + target else target + source
  }

  /** Every byte written into the HMAC, in order (webrtc.go:51-59). */
  function Written(msgType: string, source: string, target: string, channel: string): string
  {
    msgType + Ordered(source, target) + channel
  }

  /** computeWebRTCChannelHash. */
  function Compute(mac: Mac, msgType: string, source: string, target: string, channel: string): Tag
  {
    mac(Written(msgType, source, target, channel))
  }

  /** checkWebRTCChannelHash: hmac.Equal is equality of the two byte strings. */
  predicate Check(mac: Mac, hash: Tag, msgType: string, source: string, target: string, channel: string)
  {
    hash == Compute(mac, msgType, source, target, channel)
  }

  /** A MAC without collisions: the idealisation under which a tag pins down what was written. */
  ghost predicate Injective(mac: Mac)
  {
    forall x, y :: mac(x) == mac(y) ==> x == y
  }

  /** Either participant derives the same participant ordering. */
  lemma OrderedSymmetric(a: string, b: string)
    ensures Ordered(a, b) == Ordered(b, a)
  {
    LessAsymmetric(a, b);
    LessTotal(a, b);
  }

  /** Order independence: the tag does not depend on which participant is the source. */
  lemma ComputeSymmetric(mac: Mac, msgType: string, a: string, b: string, channel: string)
    ensures Compute(mac, msgType, a, b, channel) == Compute(mac, msgType, b, a, channel)
  {
    OrderedSymmetric(a, b);
  }

  /** The check holds exactly when the hash equals the tag, computed with the
      participants in either order. */
  lemma CheckExactly(mac: Mac, hash: Tag, msgType: string, a: string, b: string, channel: string)
    ensures Check(mac, hash, msgType, a, b, channel) <==> hash == Compute(mac, msgType, a, b, channel)
    ensures Check(mac, hash, msgType, a, b, channel) <==> hash == Compute(mac, msgType, b, a, channel)
    ensures Check(mac, hash, msgType, a, b, channel) <==> Check(mac, hash, msgType, b, a, channel)
  {
    ComputeSymmetric(mac, msgType, a, b, channel);
  }

  /** Under a collision-free MAC a tag verifies for another tuple exactly when
      that tuple writes the same bytes. */
  lemma TagBindsWrittenBytes(mac: Mac, t: string, a: string, b: string, c: string,
                             t': string, a': string, b': string, c': string)
    requires Injective(mac)
    ensures Check(mac, Compute(mac, t, a, b, c), t', a', b', c') <==> Written(t, a, b, c) == Written(t', a', b', c')
  {
  }

  /** Tamper evidence for the channel: with type and participants kept, a tag
      made for channel c verifies for channel c' only if c' is c. */
  lemma ChannelBound(mac: Mac, t: string, a: string, b: string, c: string, c': string)
    requires Injective(mac)
    requires Check(mac, Compute(mac, t, a, b, c), t, a, b, c')
    ensures c == c'
  {
    var prefix := t + Ordered(a, b);
    assert Written(t, a, b, c) == prefix + c;
    assert Written(t, a, b, c') == prefix + c';
    assert c == (prefix + c)[|prefix|..];
    assert c' == (prefix + c')[|prefix|..];
  }

  /** Tamper evidence for the message type: with participants and channel
      kept, a tag made for type t verifies for type t' only if t' is t. */
  lemma TypeBound(mac: Mac, t: string, t': string, a: string, b: string, c: string)
    requires Injective(mac)
    requires Check(mac, Compute(mac, t, a, b, c), t', a, b, c)
    ensures t == t'
  {
    var suffix := Ordered(a, b) + c;
    var w, w' := Written(t, a, b, c), Written(t', a, b, c);
    assert mac(w) == mac(w');
    assert w == w';
    assert w == t + suffix && w' == t' + suffix;
    assert |t| == |t'|;
    assert t == w[..|t|];
    assert t' == w'[..|t'|];
  }

  /** Tamper evidence for the participant pair: with type and channel kept, the
      tag verifies for another pair exactly when both pairs concatenate, in
      ascending order, to the same string. */
  lemma ParticipantsBound(mac: Mac, t: string, a: string, b: string, a': string, b': string, c: string)
    requires Injective(mac)
    ensures Check(mac, Compute(mac, t, a, b, c), t, a', b', c) <==> Ordered(a, b) == Ordered(a', b')
  {
    if Check(mac, Compute(mac, t, a, b, c), t, a', b', c) {
      var x, y := Ordered(a, b), Ordered(a', b');
      assert t + x + c == t + y + c;
      assert |x| == |y|;
      assert x == (t + x + c)[|t|..|t| + |x|];
      assert y == (t + y + c)[|t|..|t| + |y|];
    }
  }

  /** The bytes are written without separators, so a different split of the
      same characters between the two participant ids yields the same tag,
      whatever the MAC: the pair ("a", "bc") and the pair ("ab", "c") are
      indistinguishable. */
  lemma BoundaryCollision(mac: Mac, t: string, c: string)
    ensures Check(mac, Compute(mac, t, "a", "bc", c), t, "ab", "c", c)
  {
    assert Less("a", "bc");
    assert Less("ab", "c");
    assert "a" + "bc" == "ab" + "c";
  }

  /** Nor is there a separator between the higher id and the channel: the
      pair ("a", "b") on channel "cd" and the pair ("a", "bc") on channel "d"
      get the same tag, whatever the MAC. */
  lemma ChannelBoundaryCollision(mac: Mac, t: string)
    ensures Check(mac, Compute(mac, t, "a", "b", "cd"), t, "a", "bc", "d")
  {
    assert Less("a", "b");
    assert Less("a", "bc");
    assert t + ("a" + "b") + "cd" == t + ("a" + "bc") + "d";
  }
}
