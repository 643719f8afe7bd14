/**
 Compact tokens of section 7.1 of RFC 7515: three base64url segments joined by dots, the last one a
 MAC over the first two. The writer is src/ejwt.c; the three readers of the middle segment are in
 src/proto_auth.c, src/proto_ext.c and src/proto_system.c.
 */
module CompactToken {
  import opened Base64
  import opened Bits
  import opened Options

  type Digest = d: seq<byte> | |d| == 32 witness seq(32, _ => 0)

  /** HMAC-SHA256, any function from key and message to 32 bytes. */
  type Mac = (seq<byte>, string) -> Digest

  const HEADER_SEGMENT_CAP: nat := 256
  const PEEK_CAP: nat := 1024

  // ------------------------------------------------------------- writer

  function Segment(bs: seq<byte>): string {
    Encode(Url, bs)
  }

  function SigningInput(header: seq<byte>, payload: seq<byte>): string {
    Segment(header) + "." + Segment(payload)
  }

  function Compact(mac: Mac, key: seq<byte>, header: seq<byte>, payload: seq<byte>): string {
    var input := SigningInput(header, payload);
    input + "." + Segment(mac(key, input))
  }

  predicate HeaderFits(header: seq<byte>) {
    EncodedLen(Url, |header|) + 1 <= HEADER_SEGMENT_CAP
  }

  method EncodeSegment(bs: seq<byte>, seg: array<char>) returns (n: Option<nat>)
    modifies seg
    ensures n.Some? <==> EncodedLen(Url, |bs|) + 1 <= seg.Length
    ensures n.Some? ==> n.value < seg.Length && seg[..n.value] == Segment(bs)
  {
    n := B64Encode(Url, bs, seg, 0, seg.Length);
    if n.Some? {
      assert seg[..n.value] == seg[..n.value + 1][..n.value];
    }
  }

  /** Sizes every buffer as the source does; refuses only a header too long for its segment. */
  method SignCompact(mac: Mac, key: seq<byte>, header: seq<byte>, payload: seq<byte>)
    returns (r: Option<array<char>>)
    ensures r.Some? <==> HeaderFits(header)
    ensures r.Some? ==> fresh(r.value)
    ensures r.Some? ==> r.value[..] == Compact(mac, key, header, payload) + ['\0']
    ensures r.Some? ==> r.value.Length > 0 && SignedText(mac, key, header, payload, r.value[..r.value.Length - 1])
  {
    hide Encode, EncodedLen, Segment;
    var headerSeg := new char[HEADER_SEGMENT_CAP];
    var headerLen := EncodeSegment(header, headerSeg);
    var payloadSeg := new char[EncodedLen(Url, |payload|) + 1];
    var payloadLen := EncodeSegment(payload, payloadSeg);
    if headerLen.None? || payloadLen.None? {
      return None;
    }
    var h, p := headerLen.value, payloadLen.value;
    var signLen := h + 1 + p;
    var jwt := new char[signLen + 1 + EncodedLen(Url, 32) + 1];
    Copy(jwt, 0, headerSeg[..h]);
    jwt[h] := '.';
    assert jwt[..h + 1] == Segment(header) + ".";
    Copy(jwt, h + 1, payloadSeg[..p]);
    assert jwt[..signLen] == SigningInput(header, payload);
    var digest := mac(key, jwt[..signLen]);
    jwt[signLen] := '.';
    PutSignature(jwt, signLen, digest, SigningInput(header, payload));
    CompactIsSigned(mac, key, header, payload);
    hide SignedText;
    assert jwt[..jwt.Length - 1] == Compact(mac, key, header, payload);
    return Some(jwt);
  }

  method PutSignature(jwt: array<char>, signLen: nat, digest: Digest, ghost input: string)
    requires signLen == |input| && jwt.Length == signLen + 1 + EncodedLen(Url, 32) + 1
    requires jwt[..signLen + 1] == input + "."
    modifies jwt
    ensures jwt[..] == input + "." + Segment(digest) + ['\0']
  {
    hide Encode, EncodedLen;
    EncodedLength(Url, digest);
    var sig := B64Encode(Url, digest, jwt, signLen + 1, EncodedLen(Url, 32) + 1);
    assert jwt[..] == jwt[..signLen + 1 + EncodedLen(Url, 32) + 1];
  }

  /** memcpy. */
  method Copy(dst: array<char>, at: nat, src: seq<char>)
    requires at + |src| <= dst.Length
    modifies dst
    ensures dst[..at + |src|] == old(dst[..at]) + src
    ensures forall k :: at + |src| <= k < dst.Length ==> dst[k] == old(dst[k])
  {
    forall k | 0 <= k < |src| {
      dst[at + k] := src[k];
    }
    assert dst[..at] == old(dst[..at]);
    assert dst[at..at + |src|] == src;
    assert dst[..at + |src|] == dst[..at] + dst[at..at + |src|];
  }

  // ------------------------------------------------------------ readers

  /** strchr for a dot, from index `i`. */
  function DotFrom(s: string, i: nat): (d: Option<nat>)
    requires i <= |s|
    ensures d.Some? ==> i <= d.value < |s| && s[d.value] == '.' && '.' !in s[i..d.value]
    ensures d.None? ==> '.' !in s[i..]
    decreases |s| - i
  {
    if i == |s| then None
    else if s[i] == '.' then Some(i)
    else
      var d := DotFrom(s, i + 1);
      assert s[i..] == [s[i]] + s[i + 1..];
      assert d.Some? ==> s[i..d.value] == [s[i]] + s[i + 1..d.value];
      d
  }

  /** The text between the first two dots. */
  function MiddleSegment(jwt: string): Option<string> {
    match DotFrom(jwt, 0)
    case None => None
    case Some(d1) =>
      match DotFrom(jwt, d1 + 1)
      case None => None
      case Some(d2) => Some(jwt[d1 + 1..d2])
  }

  /** The payload bytes, read through a fixed buffer of `cap` bytes. */
  function PeekPayload(jwt: string, cap: nat): Option<seq<byte>> {
    match MiddleSegment(jwt)
    case None => None
    case Some(seg) => if |seg| == 0 || |seg| > cap then None else Decode(Url, seg, cap)
  }

  /** The payload bytes, read through a buffer as long as the segment. */
  function HarvestPayload(jwt: string): Option<seq<byte>> {
    match MiddleSegment(jwt)
    case None => None
    case Some(seg) => if |seg| == 0 then None else Decode(Url, seg, |seg|)
  }

  /** The reader over a stack buffer. */
  method Peek(jwt: string, raw: array<byte>) returns (n: Option<nat>)
    requires ByteChars(jwt)
    modifies raw
    ensures n.Some? <==> PeekPayload(jwt, raw.Length).Some?
    ensures n.Some? ==> n.value <= raw.Length && PeekPayload(jwt, raw.Length) == Some(raw[..n.value])
  {
    hide DotFrom, Decodable;
    var d1 := DotFrom(jwt, 0);
    if d1.None? {
      return None;
    }
    var d2 := DotFrom(jwt, d1.value + 1);
    if d2.None? {
      return None;
    }
    var seg := jwt[d1.value + 1..d2.value];
    if |seg| == 0 || |seg| > raw.Length {
      return None;
    }
    n := B64Decode(Url, seg, raw);
  }

  // --------------------------------------------------------- round trip

  lemma SegmentHasNoDot(bs: seq<byte>)
    ensures '.' !in Segment(bs)
  {
  }

  /** A segment starting where the search starts ends at the dot that follows it. */
  lemma {:induction false} DotAfter(before: string, seg: string, rest: string)
    requires '.' !in seg
    ensures DotFrom(before + seg + "." + rest, |before|) == Some(|before| + |seg|)
    decreases |seg|
  {
    if |seg| > 0 {
      assert seg == [seg[0]] + seg[1..];
      assert before + seg + "." + rest == (before + [seg[0]]) + seg[1..] + "." + rest;
      DotAfter(before + [seg[0]], seg[1..], rest);
    }
  }

  lemma {:induction false} MiddleOfThree(h: string, p: string, m: string)
    requires '.' !in h && '.' !in p
    ensures MiddleSegment(h + "." + p + "." + m) == Some(p)
  {
    hide DotFrom;
    var jwt := h + "." + p + "." + m;
    assert jwt == "" + h + "." + (p + "." + m);
    DotAfter("", h, p + "." + m);
    assert jwt == (h + ".") + p + "." + m;
    DotAfter(h + ".", p, m);
    assert jwt[|h| + 1..|h| + 1 + |p|] == p;
  }

  /** Cutting the token at its first two dots gives the payload's segment. */
  lemma {:induction false} MiddleOfCompact(mac: Mac, key: seq<byte>, header: seq<byte>, payload: seq<byte>)
    ensures MiddleSegment(Compact(mac, key, header, payload)) == Some(Segment(payload))
  {
    SegmentHasNoDot(header);
    SegmentHasNoDot(payload);
    hide Segment, MiddleSegment;
    MiddleOfThree(Segment(header), Segment(payload), Segment(mac(key, SigningInput(header, payload))));
    assert Compact(mac, key, header, payload)
        == Segment(header) + "." + Segment(payload) + "." + Segment(mac(key, SigningInput(header, payload)));
  }

  /**
   * A text of three base64url segments: the header, the payload, and the MAC of everything before the
   * second dot.
   */
  predicate SignedText(mac: Mac, key: seq<byte>, header: seq<byte>, payload: seq<byte>, text: string) {
    var d1 := DotFrom(text, 0);
    && d1.Some?
    && var d2 := DotFrom(text, d1.value + 1);
    && d2.Some? && '.' !in text[d2.value + 1..]
    && Decode(Url, text[..d1.value], |text|) == Some(header)
    && Decode(Url, text[d1.value + 1..d2.value], |text|) == Some(payload)
    && Decode(Url, text[d2.value + 1..], |text|) == Some(mac(key, text[..d2.value]))
  }

  lemma {:induction false} CompactIsSigned(mac: Mac, key: seq<byte>, header: seq<byte>, payload: seq<byte>)
    ensures SignedText(mac, key, header, payload, Compact(mac, key, header, payload))
  {
    hide Encode, Decode, DotFrom;
    var text := Compact(mac, key, header, payload);
    var h, p := Segment(header), Segment(payload);
    var m := Segment(mac(key, h + "." + p));
    SegmentHasNoDot(header);
    SegmentHasNoDot(payload);
    SegmentHasNoDot(mac(key, h + "." + p));
    hide Segment;
    assert text == "" + h + "." + (p + "." + m);
    DotAfter("", h, p + "." + m);
    assert text == (h + ".") + p + "." + m;
    DotAfter(h + ".", p, m);
    var d1, d2 := |h|, |h| + 1 + |p|;
    assert text[..d1] == h && text[d1 + 1..d2] == p && text[d2 + 1..] == m && text[..d2] == h + "." + p;
    SegmentDecodes(header, |text|);
    SegmentDecodes(payload, |text|);
    SegmentDecodes(mac(key, h + "." + p), |text|);
  }

  lemma SegmentDecodes(bs: seq<byte>, cap: nat)
    requires |Segment(bs)| <= cap
    ensures Decode(Url, Segment(bs), cap) == Some(bs)
  {
    EncodedLength(Url, bs);
    SegmentIsLonger(|bs|);
    hide Encode, Decode, EncodedLen;
    RoundTrip(Url, bs, cap);
  }

  lemma EmptySegment(bs: seq<byte>)
    ensures |Segment(bs)| == 0 <==> |bs| == 0
  {
    EncodedLength(Url, bs);
  }

  /**
   * What was signed is what every reader sees: the fixed-buffer readers for every non-empty payload
   * whose segment fits the buffer and for no other, the harvesting reader for every non-empty one.
   */
  lemma {:induction false} SignedPayloadIsRead(mac: Mac, key: seq<byte>, header: seq<byte>, payload: seq<byte>,
        cap: nat)
    ensures var jwt := Compact(mac, key, header, payload);
            && PeekPayload(jwt, cap)
               == (if 0 < |payload| && EncodedLen(Url, |payload|) <= cap then Some(payload) else None)
            && HarvestPayload(jwt) == (if 0 < |payload| then Some(payload) else None)
  {
    MiddleOfCompact(mac, key, header, payload);
    EmptySegment(payload);
    EncodedLength(Url, payload);
    SegmentIsLonger(|payload|);
    RoundTrip(Url, payload, |Segment(payload)|);
    if |payload| <= cap {
      RoundTrip(Url, payload, cap);
    }
  }

  /** The two fixed buffers in bytes: a header may have 191, a payload the engine looks into 768. */
  lemma {:induction false} BufferLimits(mac: Mac, key: seq<byte>, header: seq<byte>, payload: seq<byte>)
    ensures HeaderFits(header) <==> |header| <= 191
    ensures PeekPayload(Compact(mac, key, header, payload), PEEK_CAP).Some? <==> 0 < |payload| <= 768
  {
    hide Compact, PeekPayload;
    SignedPayloadIsRead(mac, key, header, payload, PEEK_CAP);
  }

  lemma SegmentIsLonger(n: nat)
    ensures n <= EncodedLen(Url, n)
  {
  }

  /** The text the MAC is computed over determines the header and the payload. */
  lemma {:induction false} SigningInputIsInjective(h1: seq<byte>, p1: seq<byte>, h2: seq<byte>, p2: seq<byte>)
    requires SigningInput(h1, p1) == SigningInput(h2, p2)
    ensures h1 == h2 && p1 == p2
  {
    SegmentHasNoDot(h1);
    SegmentHasNoDot(h2);
    var s1, s2 := SigningInput(h1, p1), SigningInput(h2, p2);
    assert s1 == "" + Segment(h1) + "." + Segment(p1);
    assert s2 == "" + Segment(h2) + "." + Segment(p2);
    DotAfter("", Segment(h1), Segment(p1));
    DotAfter("", Segment(h2), Segment(p2));
    var d := |Segment(h1)|;
    assert Segment(h1) == s1[..d] == s2[..d] == Segment(h2);
    assert Segment(p1) == s1[d + 1..] == s2[d + 1..] == Segment(p2);
    RoundTrip(Url, h1, |h1| + |h2|);
    RoundTrip(Url, h2, |h1| + |h2|);
    RoundTrip(Url, p1, |p1| + |p2|);
    RoundTrip(Url, p2, |p1| + |p2|);
  }
}
